/** The few Python string operations the messaging code relies on: str() and int() on
    integers, strip(), split() on one separator character, split(sep, 1), join() and
    replace(c, ''). Strings are sequences of characters. */
module Text {
  import opened Outcomes

  predicate IsDigit(c: char) { '0' <= c <= '9' }

  predicate AllDigits(s: string) { forall i :: 0 <= i < |s| ==> IsDigit(s[i]) }

  /** A character that can occur in Python's str() of an int. */
  predicate NumeralChar(c: char) { IsDigit(c) || c == '-' }

  /** The characters Python's str.isspace() accepts; str.strip() removes them at both ends. */
  predicate IsSpace(c: char) {
    var k := c as int;
    k == 32 || 9 <= k <= 13 || 28 <= k <= 31 || k == 0x85 || k == 0xA0 || k == 0x1680
    || 0x2000 <= k <= 0x200A || k == 0x2028 || k == 0x2029 || k == 0x202F || k == 0x205F || k == 0x3000
  }

  /** The characters int() skips at both ends of its argument: the str.isspace() characters
      except U+001C..U+001F. int() turns non-ASCII white space into ' ' and then skips ASCII
      white space only, and the four separator controls are not ASCII white space. */
  predicate IsIntSpace(c: char) {
    IsSpace(c) && !(28 <= c as int <= 31)
  }

  /** Which white space a strip removes: str.strip()'s, or the narrower set int() skips. */
  datatype Spaces = StrSpaces | IntSpaces

  predicate Skips(sp: Spaces, c: char) {
    match sp
    case StrSpaces => IsSpace(c)
    case IntSpaces => IsIntSpace(c)
  }

  function DigitChar(d: nat): (c: char)
    requires d < 10
    ensures IsDigit(c)
  {
    (48 + d) as char
  }

  function DigitValue(c: char): nat
    requires IsDigit(c)
  {
    c as int - 48
  }

  /** Python's str() of a non-negative int: its decimal digits, most significant first. */
  function NatToString(n: nat): (s: string)
    ensures |s| > 0 && AllDigits(s)
  {
    if n < 10 then [DigitChar(n)] else NatToString(n / 10) + [DigitChar(n % 10)]
  }

  /** The value of a string of decimal digits ("" is 0; callers rule it out). */
  function DigitsValue(s: string): nat
    requires AllDigits(s)
  {
    if s == [] then 0 else DigitsValue(s[..|s| - 1]) * 10 + DigitValue(s[|s| - 1])
  }

  lemma {:induction false} NatToStringValue(n: nat)
    ensures DigitsValue(NatToString(n)) == n
  {
    if n >= 10 {
      var s := NatToString(n);
      assert s[..|s| - 1] == NatToString(n / 10);
      NatToStringValue(n / 10);
    }
  }

  /** Python's str() of an int: a '-' in front of the digits of a negative number. */
  function IntToString(i: int): (s: string)
  {
    if i < 0 then "-" + NatToString(-i) else NatToString(i)
  }

  /** str() of an int starts with a digit or '-', ends with a digit and uses no other characters. */
  lemma IntToStringShape(i: int)
    ensures var s := IntToString(i);
      && |s| > 0 && IsDigit(s[|s| - 1]) && NumeralChar(s[0])
      && (forall k :: 0 <= k < |s| ==> NumeralChar(s[k]))
  {
  }

  function StripLeft(sp: Spaces, s: string): (r: string)
    ensures |r| <= |s| && r == s[|s| - |r|..]
    ensures r == [] || !Skips(sp, r[0])
    ensures forall k :: 0 <= k < |s| - |r| ==> Skips(sp, s[k])
  {
    if |s| > 0 && Skips(sp, s[0]) then StripLeft(sp, s[1..]) else s
  }

  function StripRight(sp: Spaces, s: string): (r: string)
    ensures |r| <= |s| && r == s[..|r|]
    ensures r == [] || !Skips(sp, r[|r| - 1])
    ensures forall k :: |r| <= k < |s| ==> Skips(sp, s[k])
  {
    if |s| > 0 && Skips(sp, s[|s| - 1]) then StripRight(sp, s[..|s| - 1]) else s
  }

  /** The white space of one kind removed at both ends. */
  function Trim(sp: Spaces, s: string): string
  {
    StripRight(sp, StripLeft(sp, s))
  }

  /** Python's str.strip() with no argument. */
  function Strip(s: string): string
  {
    Trim(StrSpaces, s)
  }

  /** Stripping on the left stops at the first character that is not white space. */
  lemma {:induction false} StripLeftAt(sp: Spaces, s: string, i: nat)
    requires i <= |s| && (forall k :: 0 <= k < i ==> Skips(sp, s[k]))
    requires i == |s| || !Skips(sp, s[i])
    ensures StripLeft(sp, s) == s[i..]
    decreases i
  {
    if i > 0 {
      StripLeftAt(sp, s[1..], i - 1);
      assert s[1..][i - 1..] == s[i..];
    }
  }

  /** Stripping on the right stops at the last character that is not white space. */
  lemma {:induction false} StripRightAt(sp: Spaces, s: string, j: nat)
    requires j <= |s| && (forall k :: j <= k < |s| ==> Skips(sp, s[k]))
    requires j == 0 || !Skips(sp, s[j - 1])
    ensures StripRight(sp, s) == s[..j]
    decreases |s| - j
  {
    if j < |s| {
      StripRightAt(sp, s[..|s| - 1], j);
      assert s[..|s| - 1][..j] == s[..j];
    }
  }

  /** A string with no white space at either end is its own trim. */
  lemma TrimUnpadded(sp: Spaces, s: string)
    requires s == [] || (!Skips(sp, s[0]) && !Skips(sp, s[|s| - 1]))
    ensures Trim(sp, s) == s
  {
    StripLeftAt(sp, s, 0);
    StripRightAt(sp, s, |s|);
  }

  /** Python's int() on a string: optional white space (int()'s own set), an optional sign,
      then at least one decimal digit. None stands for the ValueError int() raises on anything
      else. */
  function ParseInt(s: string): (r: Option<int>)
  {
    ParseNumeral(Trim(IntSpaces, s))
  }

  /** int() once the white space is gone: an optional sign, then at least one digit. */
  function ParseNumeral(t: string): (r: Option<int>)
  {
    if |t| > 0 && (t[0] == '-' || t[0] == '+') then
      var digits := t[1..];
      if |digits| > 0 && AllDigits(digits) then
        var magnitude: int := DigitsValue(digits);
        Some(if t[0] == '-' then -magnitude else magnitude)
      else None
    else if |t| > 0 && AllDigits(t) then Some(DigitsValue(t))
    else None
  }

  lemma StrippedIntToString(i: int)
    ensures Trim(IntSpaces, IntToString(i)) == IntToString(i)
  {
    IntToStringShape(i);
    TrimUnpadded(IntSpaces, IntToString(i));
  }

  lemma {:induction false} ParseNatToString(n: nat)
    ensures ParseNumeral(NatToString(n)) == Some(n as int)
    ensures ParseNumeral("-" + NatToString(n)) == Some(-(n as int))
  {
    var digits := NatToString(n);
    assert ("-" + digits)[1..] == digits;
    NatToStringValue(n);
  }

  /** int(str(i)) == i. */
  lemma IntToStringRoundTrip(i: int)
    ensures ParseInt(IntToString(i)) == Some(i)
  {
    StrippedIntToString(i);
    if i < 0 {
      ParseNatToString(-i);
    } else {
      ParseNatToString(i);
    }
  }

  /** A numeral int() accepts has a sign or a digit first and a digit last. */
  lemma NumeralEnds(t: string)
    requires ParseNumeral(t).Some?
    ensures |t| > 0 && (NumeralChar(t[0]) || t[0] == '+')
    ensures |t| > 0 && IsDigit(t[|t| - 1])
  {
    if t[0] == '-' || t[0] == '+' {
      assert t[|t| - 1] == t[1..][|t| - 2];
    }
  }

  /** int(x.strip()) is int(x) wherever int(x) succeeds: strip() removes all the white space
      int() skips, and a numeral has none at either end. */
  lemma StripKeepsParsedInt(s: string)
    requires ParseInt(s).Some?
    ensures ParseInt(Strip(s)) == ParseInt(s)
  {
    var l := StripLeft(IntSpaces, s);
    var t := StripRight(IntSpaces, l);
    NumeralEnds(t);
    assert l[0] == t[0];
    StripLeftAt(StrSpaces, s, |s| - |l|);
    assert t[|t| - 1] == l[|t| - 1];
    StripRightAt(StrSpaces, l, |t|);
    assert Strip(s) == t;
    TrimUnpadded(IntSpaces, t);
  }

  /** Where int(x) raises, int(x.strip()) may not: a U+001C at the front is stripped by
      strip() but rejected by int(). */
  lemma StripRescuesSeparatorPadding()
    ensures ParseInt("\U{1C}5") == None
    ensures ParseInt(Strip("\U{1C}5")) == Some(5)
  {
    var s := "\U{1C}5";
    assert !IsIntSpace(s[0]) && !IsIntSpace(s[1]);
    TrimUnpadded(IntSpaces, s);
    assert !AllDigits(s) by {
      assert !IsDigit(s[0]);
    }
    StripLeftAt(StrSpaces, s, 1);
    TrimUnpadded(StrSpaces, "5");
    assert Strip(s) == "5";
    assert DigitsValue("5") == DigitsValue("") * 10 + DigitValue('5');
  }

  /** Python's s.split(sep) for a one-character separator: the pieces between separators,
      always at least one. */
  function Split(s: string, sep: char): (r: seq<string>)
    ensures |r| >= 1
    ensures forall i :: 0 <= i < |r| ==> sep !in r[i]
  {
    if s == [] then [""]
    else
      var rest := Split(s[1..], sep);
      if s[0] == sep then [""] + rest else [[s[0]] + rest[0]] + rest[1..]
  }

  /** Python's sep.join(pieces) for a one-character separator. */
  function Join(pieces: seq<string>, sep: char): string
  {
    if |pieces| == 0 then ""
    else if |pieces| == 1 then pieces[0]
    else pieces[0] + [sep] + Join(pieces[1..], sep)
  }

  lemma {:induction false} SplitWithoutSeparator(a: string, sep: char)
    requires sep !in a
    ensures Split(a, sep) == [a]
  {
    if a != [] {
      SplitWithoutSeparator(a[1..], sep);
      assert [a[0]] + a[1..] == a;
    }
  }

  /** Splitting cuts at the first separator and carries on with the rest. */
  lemma {:induction false} SplitAtFirst(a: string, b: string, sep: char)
    requires sep !in a
    ensures Split(a + [sep] + b, sep) == [a] + Split(b, sep)
  {
    var s := a + [sep] + b;
    if a == [] {
      assert s[1..] == b;
    } else {
      assert s[1..] == a[1..] + [sep] + b;
      SplitAtFirst(a[1..], b, sep);
      assert [a[0]] + a[1..] == a;
    }
  }

  /** split() undoes join() when no piece contains the separator and there is at least one piece. */
  lemma {:induction false} SplitJoin(pieces: seq<string>, sep: char)
    requires |pieces| >= 1
    requires forall i :: 0 <= i < |pieces| ==> sep !in pieces[i]
    ensures Split(Join(pieces, sep), sep) == pieces
  {
    if |pieces| == 1 {
      SplitWithoutSeparator(pieces[0], sep);
    } else {
      SplitAtFirst(pieces[0], Join(pieces[1..], sep), sep);
      SplitJoin(pieces[1..], sep);
    }
  }

  /** Python's s.split(sep, 1) unpacked into two names: the text before the first separator
      and everything after it. None stands for the ValueError the unpacking raises when the
      separator is missing. */
  function SplitOnce(s: string, sep: char): (r: Option<(string, string)>)
    ensures r.Some? ==> s == r.value.0 + [sep] + r.value.1 && sep !in r.value.0
  {
    if s == [] then None
    else if s[0] == sep then Some(("", s[1..]))
    else
      match SplitOnce(s[1..], sep)
      case None => None
      case Some(parts) => Some(([s[0]] + parts.0, parts.1))
  }

  /** split(sep, 1) fails exactly when the separator does not occur. */
  lemma {:induction false} SplitOnceFails(s: string, sep: char)
    ensures SplitOnce(s, sep).None? <==> sep !in s
  {
    if s != [] && s[0] != sep {
      SplitOnceFails(s[1..], sep);
    }
  }

  /** split(sep, 1) recovers the two parts when the first has no separator, whatever the second holds. */
  lemma {:induction false} SplitOnceRoundTrip(a: string, b: string, sep: char)
    requires sep !in a
    ensures SplitOnce(a + [sep] + b, sep) == Some((a, b))
  {
    var s := a + [sep] + b;
    if a != [] {
      assert s[1..] == a[1..] + [sep] + b;
      SplitOnceRoundTrip(a[1..], b, sep);
      assert [a[0]] + a[1..] == a;
    }
  }

  /** Python's s.replace(c, ''): every occurrence of c removed. */
  function RemoveChar(s: string, c: char): (r: string)
    ensures c !in r
    ensures |r| <= |s|
  {
    if s == [] then [] else (if s[0] == c then [] else [s[0]]) + RemoveChar(s[1..], c)
  }

  lemma {:induction false} RemoveCharAbsent(s: string, c: char)
    requires c !in s
    ensures RemoveChar(s, c) == s
  {
    if s != [] {
      RemoveCharAbsent(s[1..], c);
      assert [s[0]] + s[1..] == s;
    }
  }

  lemma {:induction false} RemoveCharConcat(a: string, b: string, c: char)
    ensures RemoveChar(a + b, c) == RemoveChar(a, c) + RemoveChar(b, c)
  {
    if a != [] {
      assert (a + b)[1..] == a[1..] + b;
      RemoveCharConcat(a[1..], b, c);
    } else {
      assert a + b == b;
    }
  }

  /** The pattern p occurs in s at position i. */
  predicate At(s: string, i: nat, p: string)
  {
    i + |p| <= |s| && s[i..i + |p|] == p
  }

  /** One differing character rules an occurrence out. */
  lemma NotAtWhenCharDiffers(s: string, i: nat, p: string, d: nat)
    requires d < |p| && i + d < |s| && s[i + d] != p[d]
    ensures !At(s, i, p)
  {
  }
}
