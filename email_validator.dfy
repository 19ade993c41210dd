/** `isValidEmail`: the test `/^[^\s@]+@[^\s@]+\.[^\s@]+$/` as a string predicate. */
module EmailValidator {
  import opened JsText

  /** Every character is in the class `[^\s@]`. */
  predicate NoSpaceOrAt(s: string) {
    forall j :: 0 <= j < |s| ==> !IsWhitespace(s[j]) && s[j] != '@'
  }

  /** The pattern matches: the whole string splits as a non-empty local part, "@", a
      non-empty host, ".", and a non-empty rest, none of the three parts holding
      whitespace or "@" (they may hold further dots). */
  predicate IsValidEmail(s: string) {
    exists i, k :: (0 < i && i + 1 < k < |s| - 1 && s[i] == '@' && s[k] == '.'
      && NoSpaceOrAt(s[..i]) && NoSpaceOrAt(s[i + 1..k]) && NoSpaceOrAt(s[k + 1..]))
  }

  /** How many times `c` occurs in `s`. */
  function Count(s: string, c: char): nat {
    if s == [] then 0 else (if s[0] == c then 1 else 0) + Count(s[1..], c)
  }

  lemma {:induction false} CountAppend(a: string, b: string, c: char)
    ensures Count(a + b, c) == Count(a, c) + Count(b, c)
  {
    if a == [] {
      assert a + b == b;
    } else {
      assert (a + b)[0] == a[0];
      assert (a + b)[1..] == a[1..] + b;
      CountAppend(a[1..], b, c);
    }
  }

  lemma {:induction false} CountZero(s: string, c: char)
    ensures Count(s, c) == 0 <==> forall j :: 0 <= j < |s| ==> s[j] != c
  {
    if s != [] {
      CountZero(s[1..], c);
      assert forall j :: 1 <= j < |s| ==> s[j] == s[1..][j - 1];
    }
  }

  /** Counting around position `i`: what lies before it, the character itself, what lies after it. */
  lemma CountAround(s: string, i: int, c: char)
    requires 0 <= i < |s| && s[i] == c
    ensures Count(s, c) == Count(s[..i], c) + 1 + Count(s[i + 1..], c)
  {
    assert s == s[..i] + ([s[i]] + s[i + 1..]);
    CountAppend(s[..i], [s[i]] + s[i + 1..], c);
    CountAppend([s[i]], s[i + 1..], c);
    assert [s[i]][1..] == [];
  }

  /** The domain holds a "." with at least one character before it and one after it. */
  predicate HasInnerDot(d: string) {
    exists k :: 0 < k < |d| - 1 && d[k] == '.'
  }

  /** The plain-words reading of the pattern: exactly one "@", not first, no whitespace
      anywhere (nothing is trimmed), and a domain with an inner dot. */
  predicate EmailShape(s: string) {
    && Count(s, '@') == 1
    && (forall j :: 0 <= j < |s| ==> !IsWhitespace(s[j]))
    && exists i :: 0 < i < |s| && s[i] == '@' && HasInnerDot(s[i + 1..])
  }

  /** Joining two pieces of the class `[^\s@]` around one more character. */
  lemma {:induction false} JoinAround(a: string, c: char, b: string)
    requires NoSpaceOrAt(a) && NoSpaceOrAt(b) && !IsWhitespace(c)
    ensures forall j :: 0 <= j < |a + [c] + b| ==> !IsWhitespace((a + [c] + b)[j])
    ensures c != '@' ==> NoSpaceOrAt(a + [c] + b)
  {
    var t := a + [c] + b;
    forall j | 0 <= j < |t| ensures !IsWhitespace(t[j]) && (t[j] == '@' ==> j == |a|) {
      if j < |a| {
        assert t[j] == a[j];
      } else if j > |a| {
        assert t[j] == b[j - |a| - 1];
      }
    }
  }

  /** A split of the kind the pattern matches gives the shape. */
  lemma {:induction false} SplitHasShape(s: string, i: int, k: int)
    requires 0 < i && i + 1 < k < |s| - 1 && s[i] == '@' && s[k] == '.'
    requires NoSpaceOrAt(s[..i]) && NoSpaceOrAt(s[i + 1..k]) && NoSpaceOrAt(s[k + 1..])
    ensures EmailShape(s)
  {
    var d := s[i + 1..];
    assert d == s[i + 1..k] + [s[k]] + s[k + 1..];
    JoinAround(s[i + 1..k], s[k], s[k + 1..]);
    assert d[k - (i + 1)] == '.';
    assert HasInnerDot(d);
    assert s == s[..i] + [s[i]] + d;
    JoinAround(s[..i], s[i], d);
    CountAround(s, i, '@');
    CountZero(s[..i], '@');
    CountZero(d, '@');
  }

  /** Every string the validator accepts has that shape. */
  lemma AcceptedHasShape(s: string)
    requires IsValidEmail(s)
    ensures EmailShape(s)
  {
    var i, k :| 0 < i && i + 1 < k < |s| - 1 && s[i] == '@' && s[k] == '.'
      && NoSpaceOrAt(s[..i]) && NoSpaceOrAt(s[i + 1..k]) && NoSpaceOrAt(s[k + 1..]);
    SplitHasShape(s, i, k);
  }

  /** A string free of whitespace, with its only "@" at `i`, splits around `i` and the dot at `k`. */
  lemma {:induction false} ShapeGivesSplit(s: string, i: int, k: int)
    requires 0 < i && i + 1 < k < |s| - 1 && s[i] == '@' && s[k] == '.'
    requires forall j :: 0 <= j < |s| ==> !IsWhitespace(s[j]) && (s[j] == '@' ==> j == i)
    ensures NoSpaceOrAt(s[..i]) && NoSpaceOrAt(s[i + 1..k]) && NoSpaceOrAt(s[k + 1..])
  {
    var host, rest := s[i + 1..k], s[k + 1..];
    forall j | 0 <= j < |host| ensures !IsWhitespace(host[j]) && host[j] != '@' {
      assert host[j] == s[i + 1 + j];
    }
    forall j | 0 <= j < |rest| ensures !IsWhitespace(rest[j]) && rest[j] != '@' {
      assert rest[j] == s[k + 1 + j];
    }
  }

  /** Every string of that shape is accepted. */
  lemma ShapeIsAccepted(s: string)
    requires EmailShape(s)
    ensures IsValidEmail(s)
  {
    var i :| 0 < i < |s| && s[i] == '@' && HasInnerDot(s[i + 1..]);
    var d := s[i + 1..];
    var kd :| 0 < kd < |d| - 1 && d[kd] == '.';
    var k := i + 1 + kd;
    CountAround(s, i, '@');
    CountZero(s[..i], '@');
    CountZero(d, '@');
    forall j | 0 <= j < |s| && s[j] == '@' ensures j == i {
    }
    assert s[k] == '.';
    ShapeGivesSplit(s, i, k);
  }

  /** The validator accepts exactly the strings of that shape. */
  lemma EmailCharacterization(s: string)
    ensures IsValidEmail(s) <==> EmailShape(s)
  {
    if IsValidEmail(s) {
      AcceptedHasShape(s);
    }
    if EmailShape(s) {
      ShapeIsAccepted(s);
    }
  }

  /** The examples the pattern is known for. */
  lemma EmailExamples()
    ensures IsValidEmail("a@b.c") && IsValidEmail("a@b..c")
    ensures !IsValidEmail("a@b") && !IsValidEmail("@b.c") && !IsValidEmail("a@.b") && !IsValidEmail("a b@c.d")
  {
    var s := "a@b.c";
    assert s[..1] == "a" && s[2..3] == "b" && s[4..] == "c";
    assert 0 < 1 && 1 + 1 < 3 < |s| - 1 && s[1] == '@' && s[3] == '.'
      && NoSpaceOrAt(s[..1]) && NoSpaceOrAt(s[1 + 1..3]) && NoSpaceOrAt(s[3 + 1..]);
    var t := "a@b..c";
    assert t[..1] == "a" && t[2..3] == "b" && t[4..] == ".c";
    assert 0 < 1 && 1 + 1 < 3 < |t| - 1 && t[1] == '@' && t[3] == '.'
      && NoSpaceOrAt(t[..1]) && NoSpaceOrAt(t[1 + 1..3]) && NoSpaceOrAt(t[3 + 1..]);
    var u := "a b@c.d";
    EmailCharacterization(u);
    assert IsWhitespace(u[1]);
  }
}
