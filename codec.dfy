/**
 * The text form of a task list kept under the "tasks" key. It stands in for
 * `JSON.stringify` / `JSON.parse`: numbers are written in decimal with a sign
 * and a `;`, strings carry their length in front (`5:hello`), and the list is
 * enclosed in brackets, so no encoding is the empty string.
 */
module TaskCodec {
  import opened Wrappers
  import opened Tasks

  predicate IsDigit(c: char) {
    '0' <= c <= '9'
  }

  predicate AllDigits(s: string) {
    forall i :: 0 <= i < |s| ==> IsDigit(s[i])
  }

  function DigitChar(d: nat): (c: char)
    requires d < 10
    ensures IsDigit(c) && c as int - '0' as int == d
  {
    ('0' as int + d) as char
  }

  /** Decimal digits of `n`, most significant first. */
  function NatDigits(n: nat): (ds: string)
    ensures |ds| > 0 && AllDigits(ds)
  {
    if n < 10 then [DigitChar(n)] else NatDigits(n / 10) + [DigitChar(n % 10)]
  }

  /** The number a run of decimal digits denotes. */
  function DigitsValue(ds: string): nat
    requires AllDigits(ds)
  {
    if ds == [] then 0
    else DigitsValue(ds[..|ds| - 1]) * 10 + (ds[|ds| - 1] as int - '0' as int)
  }

  lemma {:induction false} DigitsValueOfNatDigits(n: nat)
    ensures DigitsValue(NatDigits(n)) == n
  {
    if n >= 10 {
      var ds := NatDigits(n);
      assert ds[..|ds| - 1] == NatDigits(n / 10);
      DigitsValueOfNatDigits(n / 10);
    }
  }

  /** Length of the run of digits that `s` starts with. */
  function DigitRun(s: string): (k: nat)
    ensures k <= |s| && forall i :: 0 <= i < k ==> IsDigit(s[i])
    ensures k < |s| ==> !IsDigit(s[k])
  {
    if s == [] || !IsDigit(s[0]) then 0
    else
      DigitRun(s[1..]) + 1
  }

  /** Reads the digits `s` starts with; none at all is a failure. */
  function DecodeNat(s: string): (r: Option<(nat, string)>)
    ensures r.Some? ==> |r.value.1| < |s|
  {
    var k := DigitRun(s);
    if k == 0 then None
    else
      assert AllDigits(s[..k]);
      Some((DigitsValue(s[..k]), s[k..]))
  }

  lemma DecodeNatRoundTrip(n: nat, rest: string)
    requires rest == [] || !IsDigit(rest[0])
    ensures DecodeNat(NatDigits(n) + rest) == Some((n, rest))
  {
    var ds := NatDigits(n);
    var s := ds + rest;
    var k := DigitRun(s);
    assert k == |ds| by {
      assert forall i :: 0 <= i < |ds| ==> s[i] == ds[i];
      assert |ds| < |s| ==> s[|ds|] == rest[0];
    }
    assert s[..k] == ds && s[k..] == rest;
    DigitsValueOfNatDigits(n);
  }

  function EncodeInt(n: int): string {
    (if n < 0 then "-" else "+") + NatDigits(if n < 0 then -n else n) + ";"
  }

  function DecodeInt(s: string): (r: Option<(int, string)>)
    ensures r.Some? ==> |r.value.1| < |s|
  {
    if s == [] || (s[0] != '+' && s[0] != '-') then None
    else match DecodeNat(s[1..])
      case None => None
      case Some((m, rest)) =>
        var v: int := m;
        var n := if s[0] == '-' then -v else v;
        if rest != [] && rest[0] == ';' then Some((n, rest[1..])) else None
  }

  lemma DecodeIntRoundTrip(n: int, rest: string)
    ensures DecodeInt(EncodeInt(n) + rest) == Some((n, rest))
  {
    var m: nat := if n < 0 then -n else n;
    var s := EncodeInt(n) + rest;
    assert s[0] == (if n < 0 then '-' else '+');
    assert s[1..] == NatDigits(m) + (";" + rest);
    DecodeNatRoundTrip(m, ";" + rest);
    assert (";" + rest)[1..] == rest;
  }

  function EncodeStr(s: string): string {
    NatDigits(|s|) + ":" + s
  }

  function DecodeStr(s: string): (r: Option<(string, string)>)
    ensures r.Some? ==> |r.value.1| < |s|
  {
    match DecodeNat(s)
    case None => None
    case Some((n, rest)) =>
      if |rest| > n && rest[0] == ':' then Some((rest[1..n + 1], rest[n + 1..])) else None
  }

  lemma DecodeStrRoundTrip(s: string, rest: string)
    ensures DecodeStr(EncodeStr(s) + rest) == Some((s, rest))
  {
    var tail := ":" + s + rest;
    assert EncodeStr(s) + rest == NatDigits(|s|) + tail;
    DecodeNatRoundTrip(|s|, tail);
    assert tail[1..|s| + 1] == s && tail[|s| + 1..] == rest;
  }

  function EncodeTask(t: Task): string {
    EncodeInt(t.id) + EncodeStr(t.title) + EncodeStr(t.description) + EncodeStr(t.status)
  }

  function DecodeTask(s: string): (r: Option<(Task, string)>)
    ensures r.Some? ==> |r.value.1| < |s|
  {
    match DecodeInt(s)
    case None => None
    case Some((id, s1)) =>
      match DecodeStr(s1)
      case None => None
      case Some((title, s2)) =>
        match DecodeStr(s2)
        case None => None
        case Some((description, s3)) =>
          match DecodeStr(s3)
          case None => None
          case Some((status, s4)) => Some((Task(id, title, description, status), s4))
  }

  lemma DecodeTaskStep(s: string, t: Task, s1: string, s2: string, s3: string, rest: string)
    requires DecodeInt(s) == Some((t.id, s1))
    requires DecodeStr(s1) == Some((t.title, s2))
    requires DecodeStr(s2) == Some((t.description, s3))
    requires DecodeStr(s3) == Some((t.status, rest))
    ensures DecodeTask(s) == Some((t, rest))
  {
  }

  lemma Concat5(a: string, b: string, c: string, d: string, e: string)
    ensures a + b + c + d + e == a + (b + (c + (d + e)))
  {
  }

  lemma DecodeTaskRoundTrip(t: Task, rest: string)
    ensures DecodeTask(EncodeTask(t) + rest) == Some((t, rest))
  {
    var r3 := EncodeStr(t.status) + rest;
    var r2 := EncodeStr(t.description) + r3;
    var r1 := EncodeStr(t.title) + r2;
    Concat5(EncodeInt(t.id), EncodeStr(t.title), EncodeStr(t.description), EncodeStr(t.status), rest);
    DecodeIntRoundTrip(t.id, r1);
    DecodeStrRoundTrip(t.title, r2);
    DecodeStrRoundTrip(t.description, r3);
    DecodeStrRoundTrip(t.status, rest);
    DecodeTaskStep(EncodeInt(t.id) + r1, t, r1, r2, r3, rest);
  }

  function EncodeList(ts: seq<Task>): string {
    if ts == [] then [] else EncodeTask(ts[0]) + EncodeList(ts[1..])
  }

  /** Reads tasks up to and including the closing bracket. */
  function DecodeList(s: string): (r: Option<(seq<Task>, string)>)
    ensures r.Some? ==> |r.value.1| < |s|
    decreases |s|
  {
    if s != [] && s[0] == ']' then Some(([], s[1..]))
    else match DecodeTask(s)
      case None => None
      case Some((t, rest)) =>
        match DecodeList(rest)
        case None => None
        case Some((ts, tail)) => Some(([t] + ts, tail))
  }

  lemma EncodeTaskStart(t: Task)
    ensures EncodeTask(t) != [] && EncodeTask(t)[0] != ']'
  {
    assert EncodeTask(t)[0] == EncodeInt(t.id)[0];
  }

  lemma DecodeListStep(s: string, t: Task, tail: string, ts: seq<Task>, rest: string)
    requires s != [] && s[0] != ']'
    requires DecodeTask(s) == Some((t, tail))
    requires DecodeList(tail) == Some((ts, rest))
    ensures DecodeList(s) == Some(([t] + ts, rest))
  {
  }

  lemma AssocTail(a: string, b: string, c: string, d: string)
    ensures a + b + c + d == a + (b + c + d)
  {
  }

  lemma HeadOfConcat(a: string, t: string)
    requires a != []
    ensures (a + t)[0] == a[0]
  {
  }

  lemma DecodeListCons(t: Task, more: string, ts: seq<Task>, rest: string)
    requires DecodeList(more + "]" + rest) == Some((ts, rest))
    ensures DecodeList(EncodeTask(t) + more + "]" + rest) == Some(([t] + ts, rest))
  {
    var head, tail := EncodeTask(t), more + "]" + rest;
    AssocTail(head, more, "]", rest);
    EncodeTaskStart(t);
    HeadOfConcat(head, tail);
    DecodeTaskRoundTrip(t, tail);
    DecodeListStep(head + tail, t, tail, ts, rest);
  }

  lemma EncodeListCons(ts: seq<Task>)
    requires ts != []
    ensures EncodeList(ts) == EncodeTask(ts[0]) + EncodeList(ts[1..])
    ensures [ts[0]] + ts[1..] == ts
  {
  }

  lemma DecodeListEnd(rest: string)
    ensures DecodeList("]" + rest) == Some(([], rest))
  {
    assert ("]" + rest)[1..] == rest;
  }

  lemma {:induction false} DecodeListRoundTrip(ts: seq<Task>, rest: string)
    ensures DecodeList(EncodeList(ts) + "]" + rest) == Some((ts, rest))
  {
    if ts == [] {
      DecodeListEnd(rest);
      assert EncodeList(ts) + "]" + rest == "]" + rest;
    } else {
      DecodeListRoundTrip(ts[1..], rest);
      DecodeListCons(ts[0], EncodeList(ts[1..]), ts[1..], rest);
      EncodeListCons(ts);
    }
  }

  /** `JSON.stringify` of a task list. */
  function Encode(ts: seq<Task>): (s: string)
    ensures s != []
  {
    "[" + EncodeList(ts) + "]"
  }

  /** `JSON.parse` of a stored task list; `None` where parsing throws. */
  function Decode(s: string): Option<seq<Task>> {
    if s == [] || s[0] != '[' then None
    else match DecodeList(s[1..])
      case None => None
      case Some((ts, rest)) => if rest == [] then Some(ts) else None
  }

  /** Parsing what was written gives the same list back. */
  lemma RoundTrip(ts: seq<Task>)
    ensures Decode(Encode(ts)) == Some(ts)
  {
    var s := Encode(ts);
    assert s[1..] == EncodeList(ts) + "]" + [];
    DecodeListRoundTrip(ts, []);
  }

  /** Two lists with the same text are the same list. */
  lemma EncodeInjective(a: seq<Task>, b: seq<Task>)
    requires Encode(a) == Encode(b)
    ensures a == b
  {
    RoundTrip(a);
    RoundTrip(b);
  }
}
