/**
 * `String.prototype.trim` as the task form uses it: strip the characters that
 * JavaScript counts as white space or line terminators from both ends.
 */
module Text {

  /** WhiteSpace and LineTerminator code points of the ECMAScript grammar. */
  predicate IsJsWhitespace(c: char) {
    || c == '\t' || c == '\n' || c == '\U{000B}' || c == '\U{000C}' || c == '\r'
    || c == ' ' || c == '\U{00A0}' || c == '\U{1680}'
    || ('\U{2000}' <= c <= '\U{200A}')
    || c == '\U{2028}' || c == '\U{2029}' || c == '\U{202F}' || c == '\U{205F}'
    || c == '\U{3000}' || c == '\U{FEFF}'
  }

  predicate AllWhitespace(s: string) {
    forall i :: 0 <= i < |s| ==> IsJsWhitespace(s[i])
  }

  /** `r` is `s` with some white space cut off at its start and its end. */
  ghost predicate WhitespaceFramed(r: string, s: string) {
    exists i, j :: 0 <= i <= j <= |s| && r == s[i..j] && AllWhitespace(s[..i]) && AllWhitespace(s[j..])
  }

  lemma FramedWhole(s: string)
    ensures WhitespaceFramed(s, s)
  {
    assert s == s[0..|s|] && s[..0] == [] && s[|s|..] == [];
  }

  /** Cutting one more white-space character off the front keeps the frame. */
  lemma FramedFront(r: string, s: string)
    requires s != [] && IsJsWhitespace(s[0])
    requires WhitespaceFramed(r, s[1..])
    ensures WhitespaceFramed(r, s)
  {
    var t := s[1..];
    var i, j :| 0 <= i <= j <= |t| && r == t[i..j] && AllWhitespace(t[..i]) && AllWhitespace(t[j..]);
    var pre, post := s[..i + 1], s[j + 1..];
    forall k | 0 <= k < |pre|
      ensures IsJsWhitespace(pre[k])
    {
      if k > 0 {
        assert pre[k] == t[..i][k - 1];
      }
    }
    forall k | 0 <= k < |post|
      ensures IsJsWhitespace(post[k])
    {
      assert post[k] == t[j..][k];
    }
    assert r == s[i + 1..j + 1] by {
      assert |r| == |s[i + 1..j + 1]|;
      forall k | 0 <= k < |r|
        ensures r[k] == s[i + 1..j + 1][k]
      {
        assert r[k] == t[i + k];
      }
    }
    assert 0 <= i + 1 <= j + 1 <= |s| && AllWhitespace(pre) && AllWhitespace(post);
  }

  /** Cutting one more white-space character off the end keeps the frame. */
  lemma FramedBack(r: string, s: string)
    requires s != [] && IsJsWhitespace(s[|s| - 1])
    requires WhitespaceFramed(r, s[..|s| - 1])
    ensures WhitespaceFramed(r, s)
  {
    var p := s[..|s| - 1];
    var i, j :| 0 <= i <= j <= |p| && r == p[i..j] && AllWhitespace(p[..i]) && AllWhitespace(p[j..]);
    assert r == s[i..j];
    assert s[..i] == p[..i];
    var post := s[j..];
    forall k | 0 <= k < |post|
      ensures IsJsWhitespace(post[k])
    {
      if k < |post| - 1 {
        assert post[k] == p[j..][k];
      }
    }
  }

  /** `trim`: strips white space from both ends. The result is `s` with only
      white space cut off before and after it; it neither starts nor ends with
      white space, and it is empty exactly when `s` holds nothing but white
      space. */
  function Trim(s: string): (r: string)
    ensures |r| <= |s|
    ensures WhitespaceFramed(r, s)
    ensures r == [] || (!IsJsWhitespace(r[0]) && !IsJsWhitespace(r[|r| - 1]))
    ensures r == [] <==> AllWhitespace(s)
  {
    if s == [] then
      FramedWhole(s);
      s
    else if IsJsWhitespace(s[0]) then
      var r := Trim(s[1..]);
      assert AllWhitespace(s) <==> AllWhitespace(s[1..]) by {
        assert forall i :: 0 < i < |s| ==> s[i] == s[1..][i - 1];
      }
      FramedFront(r, s);
      r
    else if IsJsWhitespace(s[|s| - 1]) then
      var r := Trim(s[..|s| - 1]);
      assert !AllWhitespace(s[..|s| - 1]) by {
        assert s[..|s| - 1][0] == s[0];
      }
      FramedBack(r, s);
      r
    else
      FramedWhole(s);
      s
  }

  /** Trimming a trimmed string changes nothing. */
  lemma TrimIdempotent(s: string)
    ensures Trim(Trim(s)) == Trim(s)
  {
  }
}
