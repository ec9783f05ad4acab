/** The few Python string operations the client relies on: str.strip(),
    str.split(','), the comma-list comprehension of the task-id field,
    int(str) in base 10, and str(int) as used in f-strings. */
module Text {
  import opened Wrappers
  import Seqs

  /** The characters Python treats as whitespace (str.isspace), which
      str.strip() removes from both ends. */
  predicate IsSpace(c: char) {
    var n := c as int;
    || 0x09 <= n <= 0x0D
    || 0x1C <= n <= 0x20
    || n == 0x85 || n == 0xA0 || n == 0x1680
    || 0x2000 <= n <= 0x200A
    || n == 0x2028 || n == 0x2029 || n == 0x202F || n == 0x205F || n == 0x3000
  }

  /** The four information separators U+001C to U+001F: str.isspace()
      counts them as whitespace, but int() does not skip them. */
  predicate IsInfoSeparator(c: char) {
    0x1C <= c as int <= 0x1F
  }

  /** The whitespace int() skips around a number: the ASCII characters
      tab, line feed, vertical tab, form feed, carriage return and space,
      and every non-ASCII character str.isspace() accepts. */
  predicate IsIntSpace(c: char) {
    IsSpace(c) && !IsInfoSeparator(c)
  }

  predicate IsDigit(c: char) {
    '0' <= c <= '9'
  }

  predicate AllSpace(s: string) {
    forall k :: 0 <= k < |s| ==> IsSpace(s[k])
  }

  predicate AllIntSpace(s: string) {
    forall k :: 0 <= k < |s| ==> IsIntSpace(s[k])
  }

  predicate HasInfoSeparator(s: string) {
    exists k :: 0 <= k < |s| && IsInfoSeparator(s[k])
  }

  /** No whitespace at either end (what str.strip() leaves behind). */
  predicate Trimmed(s: string) {
    s == [] || (!IsSpace(s[0]) && !IsSpace(s[|s| - 1]))
  }

  /** Length of the run of whitespace that starts s. */
  function LeadingSpaces(s: string): (n: nat)
    ensures n <= |s|
    ensures forall k :: 0 <= k < n ==> IsSpace(s[k])
    ensures n < |s| ==> !IsSpace(s[n])
  {
    if |s| > 0 && IsSpace(s[0]) then 1 + LeadingSpaces(s[1..]) else 0
  }

  /** Length of the run of whitespace that ends s. */
  function TrailingSpaces(s: string): (n: nat)
    ensures n <= |s|
    ensures forall k :: |s| - n <= k < |s| ==> IsSpace(s[k])
    ensures n < |s| ==> !IsSpace(s[|s| - 1 - n])
  {
    if |s| > 0 && IsSpace(s[|s| - 1]) then 1 + TrailingSpaces(s[..|s| - 1]) else 0
  }

  /** Python's str.strip() with no argument. */
  function Strip(s: string): (r: string)
    ensures |r| <= |s| && Trimmed(r)
    ensures r == [] <==> AllSpace(s)
  {
    var i := LeadingSpaces(s);
    var t := s[i..];
    var j := |t| - TrailingSpaces(t);
    assert AllSpace(s) ==> i == |s|;
    assert |t| > 0 ==> t[0] == s[i];
    if j > 0 then
      assert t[..j][0] == s[i] && t[..j][j - 1] == t[|t| - 1 - TrailingSpaces(t)];
      t[..j]
    else
      []
  }

  /** str.strip() removes exactly the whitespace around a trimmed core. */
  lemma StripSurrounded(pre: string, core: string, post: string)
    requires AllSpace(pre) && AllSpace(post) && Trimmed(core)
    ensures Strip(pre + core + post) == core
  {
    var s := pre + core + post;
    if core == [] {
      assert AllSpace(s) by {
        forall k | 0 <= k < |s| ensures IsSpace(s[k]) {
          if k < |pre| { assert s[k] == pre[k]; } else { assert s[k] == post[k - |pre|]; }
        }
      }
    } else {
      var i := LeadingSpaces(s);
      assert s[|pre|] == core[0];
      assert forall k :: 0 <= k < |pre| ==> s[k] == pre[k];
      assert i == |pre|;
      var t := s[i..];
      assert t == core + post;
      var n := TrailingSpaces(t);
      assert t[|t| - 1 - |post|] == core[|core| - 1];
      assert forall k :: |core| <= k < |t| ==> t[k] == post[k - |core|];
      assert n == |post|;
      assert t[..|t| - n] == core;
    }
  }

  /** Stripping twice is stripping once. */
  lemma StripIdempotent(s: string)
    ensures Strip(Strip(s)) == Strip(s)
  {
    StripSurrounded([], Strip(s), []);
    assert [] + Strip(s) + [] == Strip(s);
  }

  /** Python's sub in s for two strings: sub occurs in s as a contiguous run. */
  predicate Contains(s: string, sub: string)
    decreases |s|
  {
    |sub| <= |s| && (s[..|sub|] == sub || Contains(s[1..], sub))
  }

  /** Position of the first sep in s, or |s| when there is none. */
  function FirstIndex(s: string, sep: char): (i: nat)
    ensures i <= |s|
    ensures forall k :: 0 <= k < i ==> s[k] != sep
    ensures i < |s| ==> s[i] == sep
  {
    if s == [] || s[0] == sep then 0 else 1 + FirstIndex(s[1..], sep)
  }

  /** Python's s.split(sep) for a one-character separator: the pieces
      between separators, empty ones included. */
  function Split(s: string, sep: char): (parts: seq<string>)
    ensures |parts| >= 1
    decreases |s|
  {
    var i := FirstIndex(s, sep);
    if i == |s| then [s] else [s[..i]] + Split(s[i + 1..], sep)
  }

  /** No piece of a split holds the separator. */
  lemma {:induction false} SplitPiecesLackSeparator(s: string, sep: char)
    ensures forall i :: 0 <= i < |Split(s, sep)| ==> sep !in Split(s, sep)[i]
    decreases |s|
  {
    var i := FirstIndex(s, sep);
    if i < |s| {
      SplitPiecesLackSeparator(s[i + 1..], sep);
      assert sep !in s[..i];
    }
  }

  /** Python's sep.join(parts). */
  function Join(parts: seq<string>, sep: char): string
  {
    if |parts| == 0 then []
    else if |parts| == 1 then parts[0]
    else parts[0] + [sep] + Join(parts[1..], sep)
  }

  /** Joining the pieces of a split gives back the text. */
  lemma {:induction false} JoinSplit(s: string, sep: char)
    ensures Join(Split(s, sep), sep) == s
    decreases |s|
  {
    var i := FirstIndex(s, sep);
    if i < |s| {
      var head, tail := s[..i], s[i + 1..];
      var parts := [head] + Split(tail, sep);
      assert Split(s, sep) == parts;
      assert parts[0] == head && parts[1..] == Split(tail, sep);
      calc {
        Join(parts, sep);
        head + [sep] + Join(Split(tail, sep), sep);
        == { JoinSplit(tail, sep); }
        head + [sep] + tail;
        == { assert s == s[..i] + [sep] + s[i + 1..]; }
        s;
      }
    }
  }

  /** A text without the separator splits into itself alone. */
  lemma SplitNoSeparator(s: string, sep: char)
    requires sep !in s
    ensures Split(s, sep) == [s]
  {
  }

  /** A separator-free piece followed by the separator is split off first. */
  lemma SplitAfterPiece(a: string, b: string, sep: char)
    requires sep !in a
    ensures Split(a + [sep] + b, sep) == [a] + Split(b, sep)
  {
    var s := a + [sep] + b;
    var i := FirstIndex(s, sep);
    assert s[|a|] == sep;
    assert forall k :: 0 <= k < |a| ==> s[k] == a[k];
    assert i == |a|;
    assert s[..i] == a;
    assert s[i + 1..] == b;
  }

  /** SplitConcat for a text whose first piece is head. */
  lemma SplitConcatStep(head: string, tail: string, b: string, sep: char)
    requires sep !in head
    requires Split(tail + [sep] + b, sep) == Split(tail, sep) + Split(b, sep)
    ensures Split(head + [sep] + tail + [sep] + b, sep) == Split(head + [sep] + tail, sep) + Split(b, sep)
  {
    var x := tail + [sep] + b;
    calc {
      Split(head + [sep] + tail + [sep] + b, sep);
      == { assert head + [sep] + tail + [sep] + b == head + [sep] + x; }
      Split(head + [sep] + x, sep);
      == { SplitAfterPiece(head, x, sep); }
      [head] + Split(x, sep);
      == { Seqs.Assoc([head], Split(tail, sep), Split(b, sep)); }
      [head] + Split(tail, sep) + Split(b, sep);
      == { SplitAfterPiece(head, tail, sep); }
      Split(head + [sep] + tail, sep) + Split(b, sep);
    }
  }

  /** The split of a text that holds a separator is the split of what comes
      before it followed by the split of what comes after it. */
  lemma {:induction false} SplitConcat(a: string, b: string, sep: char)
    ensures Split(a + [sep] + b, sep) == Split(a, sep) + Split(b, sep)
    decreases |a|
  {
    var i := FirstIndex(a, sep);
    if i == |a| {
      SplitAfterPiece(a, b, sep);
    } else {
      var head, tail := a[..i], a[i + 1..];
      assert a == head + [sep] + tail;
      SplitConcat(tail, b, sep);
      SplitConcatStep(head, tail, b, sep);
    }
  }

  /** Splitting a join of separator-free pieces gives back the pieces. */
  lemma {:induction false} SplitJoin(parts: seq<string>, sep: char)
    requires |parts| >= 1
    requires forall i :: 0 <= i < |parts| ==> sep !in parts[i]
    ensures Split(Join(parts, sep), sep) == parts
    decreases |parts|
  {
    if |parts| == 1 {
      SplitNoSeparator(parts[0], sep);
    } else {
      SplitJoin(parts[1..], sep);
      SplitAfterPiece(parts[0], Join(parts[1..], sep), sep);
    }
  }

  /** [t.strip() for t in pieces if t.strip()] */
  function KeepStripped(pieces: seq<string>): (r: seq<string>)
    ensures |r| <= |pieces|
    ensures forall i :: 0 <= i < |r| ==> r[i] != [] && Strip(r[i]) == r[i]
  {
    if pieces == [] then []
    else
      var p := Strip(pieces[0]);
      StripIdempotent(pieces[0]);
      var rest := KeepStripped(pieces[1..]);
      if p == [] then rest else [p] + rest
  }

  lemma {:induction false} KeepStrippedConcat(a: seq<string>, b: seq<string>)
    ensures KeepStripped(a + b) == KeepStripped(a) + KeepStripped(b)
    decreases |a|
  {
    if a != [] {
      assert (a + b)[1..] == a[1..] + b;
      KeepStrippedConcat(a[1..], b);
    } else {
      assert a + b == b;
    }
  }

  /** One piece becomes its strip, or nothing when it is blank. */
  lemma KeepStrippedPiece(p: string)
    ensures KeepStripped([p]) == if Strip(p) == [] then [] else [Strip(p)]
  {
    assert [p][1..] == [];
  }

  /** The comprehension keeps exactly the non-blank strips of the pieces. */
  lemma {:induction false} KeepStrippedMembers(pieces: seq<string>, x: string)
    ensures x in KeepStripped(pieces) <==> x != [] && exists i :: 0 <= i < |pieces| && Strip(pieces[i]) == x
    decreases |pieces|
  {
    if pieces != [] {
      KeepStrippedMembers(pieces[1..], x);
      if x != [] && Strip(pieces[0]) != x && (exists i :: 0 <= i < |pieces| && Strip(pieces[i]) == x) {
        var i :| 0 <= i < |pieces| && Strip(pieces[i]) == x;
        assert Strip(pieces[1..][i - 1]) == x;
      }
    }
  }

  /** The task ids typed into the task-list field: the comma-separated
      pieces, each stripped, empty ones dropped, in input order. */
  function IdParts(text: string): (parts: seq<string>)
    ensures forall i :: 0 <= i < |parts| ==> parts[i] != [] && Strip(parts[i]) == parts[i]
  {
    KeepStripped(Split(text, ','))
  }

  /** The pieces of "a,b" are the pieces of a followed by those of b. */
  lemma IdPartsConcat(a: string, b: string)
    ensures IdParts(a + [','] + b) == IdParts(a) + IdParts(b)
  {
    SplitConcat(a, b, ',');
    KeepStrippedConcat(Split(a, ','), Split(b, ','));
  }

  /** A piece without a comma gives its strip as its one id, or no id when
      it is blank. */
  lemma IdPartsPiece(p: string)
    requires ',' !in p
    ensures IdParts(p) == if Strip(p) == [] then [] else [Strip(p)]
  {
    SplitNoSeparator(p, ',');
    KeepStrippedPiece(p);
  }

  /** A padded id without a comma gives that id alone. */
  lemma IdPartsPadded(pre: string, id: string, post: string)
    requires AllSpace(pre) && AllSpace(post) && Trimmed(id) && id != []
    requires ',' !in pre + id + post
    ensures IdParts(pre + id + post) == [id]
  {
    StripSurrounded(pre, id, post);
    IdPartsPiece(pre + id + post);
  }

  /** A blank piece gives no id. */
  lemma IdPartsBlank(p: string)
    requires AllSpace(p) && ',' !in p
    ensures IdParts(p) == []
  {
    IdPartsPiece(p);
  }

  /** Clean ids joined with commas split back into exactly those ids. */
  lemma {:induction false} IdPartsJoin(ids: seq<string>)
    requires forall i :: 0 <= i < |ids| ==> ids[i] != [] && Strip(ids[i]) == ids[i] && ',' !in ids[i]
    ensures IdParts(Join(ids, ',')) == ids
    decreases |ids|
  {
    if ids == [] {
      assert Strip([]) == [];
    } else if |ids| == 1 {
      SplitNoSeparator(ids[0], ',');
      assert KeepStripped([ids[0]]) == [ids[0]] + KeepStripped([]);
    } else {
      IdPartsJoin(ids[1..]);
      SplitAfterPiece(ids[0], Join(ids[1..], ','), ',');
      KeepStrippedConcat([ids[0]], Split(Join(ids[1..], ','), ','));
      assert KeepStripped([ids[0]]) == [ids[0]] + KeepStripped([]);
    }
  }

  function DigitValue(c: char): nat
    requires IsDigit(c)
  {
    c as int - '0' as int
  }

  function DigitChar(d: nat): (c: char)
    requires d < 10
    ensures IsDigit(c) && DigitValue(c) == d
  {
    ('0' as int + d) as char
  }

  /** Python's grammar for the digits of a base-10 literal, digit ("_"? digit)*:
      ASCII digits, a single underscore allowed between two of them. */
  predicate IsDigitString(s: string)
    decreases |s|
  {
    && |s| > 0
    && IsDigit(s[0])
    && (|s| == 1 || if s[1] == '_' then |s| > 2 && IsDigitString(s[2..]) else IsDigitString(s[1..]))
  }

  /** Every non-empty run of plain digits is a digit string. */
  lemma {:induction false} AllDigitsIsDigitString(s: string)
    requires |s| > 0 && forall k :: 0 <= k < |s| ==> IsDigit(s[k])
    ensures IsDigitString(s)
    decreases |s|
  {
    if |s| > 1 {
      AllDigitsIsDigitString(s[1..]);
    }
  }

  /** The number a digit string denotes, its underscores ignored. */
  function DigitsValue(s: string): nat
  {
    if s == [] then 0
    else if IsDigit(s[|s| - 1]) then 10 * DigitsValue(s[..|s| - 1]) + DigitValue(s[|s| - 1])
    else DigitsValue(s[..|s| - 1])
  }

  /** int() on text with no surrounding whitespace: an optional sign, then
      a digit string. */
  function ParseSigned(t: string): (r: Option<int>)
    ensures r.Some? ==> t != []
  {
    if |t| > 0 && (t[0] == '+' || t[0] == '-') then
      if IsDigitString(t[1..]) then
        var v: int := DigitsValue(t[1..]);
        Some(if t[0] == '-' then -v else v)
      else None
    else if IsDigitString(t) then Some(DigitsValue(t))
    else None
  }

  /** Python's int(s) for a str s: whitespace that int() skips around it,
      then an optional sign and a digit string. None is the ValueError it
      raises. int() skips less than str.strip() removes: an information
      separator is never skipped, and as it is no sign, digit or underscore,
      a text that holds one anywhere is rejected. On any other text the two
      whitespace sets agree, so the number is what remains after Strip. */
  function ParseInt(s: string): (r: Option<int>)
    ensures r.Some? ==> Strip(s) != [] && !HasInfoSeparator(s)
  {
    if HasInfoSeparator(s) then None else ParseSigned(Strip(s))
  }

  /** Every character of a digit string is a digit or an underscore, and
      it begins and ends with a digit. */
  lemma {:induction false} DigitStringChars(s: string)
    requires IsDigitString(s)
    ensures IsDigit(s[0]) && IsDigit(s[|s| - 1])
    ensures forall k :: 0 <= k < |s| ==> IsDigit(s[k]) || s[k] == '_'
    ensures forall k :: 0 <= k < |s| - 1 ==> s[k] == '_' ==> IsDigit(s[k + 1])
    decreases |s|
  {
    if |s| > 1 {
      var j := if s[1] == '_' then 2 else 1;
      DigitStringChars(s[j..]);
      assert forall k :: j <= k < |s| ==> s[k] == s[j..][k - j];
    }
  }

  /** The characters of a signed digit string: an optional leading sign,
      then digits with single underscores between them, ending in a digit. */
  lemma SignedDigitsChars(t: string)
    requires ParseSigned(t).Some?
    ensures t != [] && IsDigit(t[|t| - 1])
    ensures var j := if t[0] == '+' || t[0] == '-' then 1 else 0; j < |t| && IsDigit(t[j])
    ensures forall k :: 0 <= k < |t| ==> IsDigit(t[k]) || t[k] == '_' || (k == 0 && (t[k] == '+' || t[k] == '-'))
    ensures forall k :: 0 <= k < |t| - 1 ==> t[k] == '_' ==> IsDigit(t[k + 1])
  {
    if t[0] == '+' || t[0] == '-' {
      var d := t[1..];
      DigitStringChars(d);
      assert forall k :: 1 <= k < |t| ==> t[k] == d[k - 1];
    } else {
      DigitStringChars(t);
    }
  }

  /** What int() accepts: after stripping, an optional sign, then digits
      with single underscores between them, ending in a digit, and no
      information separator anywhere. A letter, a dot, an inner space or a
      doubled underscore makes it fail. */
  lemma ParsedTextIsSignedDigits(s: string)
    requires ParseInt(s).Some?
    ensures !HasInfoSeparator(s)
    ensures var t := Strip(s);
      && t != [] && IsDigit(t[|t| - 1])
      && (var j := if t[0] == '+' || t[0] == '-' then 1 else 0; j < |t| && IsDigit(t[j]))
      && (forall k :: 0 <= k < |t| ==> IsDigit(t[k]) || t[k] == '_' || (k == 0 && (t[k] == '+' || t[k] == '-')))
      && (forall k :: 0 <= k < |t| - 1 ==> t[k] == '_' ==> IsDigit(t[k + 1]))
    ensures var t := Strip(s);
      var j := if t[0] == '+' || t[0] == '-' then 1 else 0;
      && IsDigitString(t[j..])
      && ParseInt(s).value == if t[0] == '-' then -(DigitsValue(t[j..]) as int) else DigitsValue(t[j..]) as int
  {
    var t := Strip(s);
    SignedDigitsChars(t);
    if !(t[0] == '+' || t[0] == '-') {
      assert t[0..] == t;
    }
  }

  /** A signed digit string needs no stripping: int() reads it as it is. */
  lemma ParseIntOfSigned(t: string)
    requires ParseSigned(t).Some?
    ensures ParseInt(t) == ParseSigned(t)
  {
    SignedDigitsChars(t);
    assert !HasInfoSeparator(t) by {
      forall k | 0 <= k < |t| ensures !IsInfoSeparator(t[k]) {
        assert IsDigit(t[k]) || t[k] == '_' || t[k] == '+' || t[k] == '-';
      }
    }
    StripTrimmed(t);
  }

  /** Whitespace that int() skips is whitespace, and holds no
      information separator. */
  lemma IntSpaceIsSpace(s: string)
    requires AllIntSpace(s)
    ensures AllSpace(s) && !HasInfoSeparator(s)
  {
  }

  lemma NoInfoSeparatorConcat(a: string, b: string, c: string)
    requires !HasInfoSeparator(a) && !HasInfoSeparator(b) && !HasInfoSeparator(c)
    ensures !HasInfoSeparator(a + b + c)
  {
    var s := a + b + c;
    forall k | 0 <= k < |s| ensures !IsInfoSeparator(s[k]) {
      if k < |a| {
        assert s[k] == a[k];
      } else if k < |a| + |b| {
        assert s[k] == b[k - |a|];
      } else {
        assert s[k] == c[k - |a| - |b|];
      }
    }
  }

  /** int() of text that reads as a number without stripping, with
      whitespace that int() skips around it, is that number. */
  lemma ParseIntPaddedSigned(pre: string, t: string, post: string)
    requires AllIntSpace(pre) && AllIntSpace(post) && ParseSigned(t).Some?
    ensures ParseInt(pre + t + post) == ParseSigned(t)
  {
    ParseIntOfSigned(t);
    SignedDigitsChars(t);
    assert Trimmed(t);
    IntSpaceIsSpace(pre);
    IntSpaceIsSpace(post);
    NoInfoSeparatorConcat(pre, t, post);
    StripSurrounded(pre, t, post);
  }

  /** int() of the decimal text of n with whitespace that int() skips
      around it is n. */
  lemma ParseIntPadded(pre: string, n: int, post: string)
    requires AllIntSpace(pre) && AllIntSpace(post)
    ensures ParseInt(pre + IntToString(n) + post) == Some(n)
  {
    ParseSignedToString(n);
    ParseIntPaddedSigned(pre, IntToString(n), post);
  }

  /** Everything of the shape int() accepts converts: skipped whitespace,
      an optional sign, a digit string, skipped whitespace; the value is
      that of the digits, negated after a minus. Leading zeros are allowed. */
  lemma ParseIntAccepts(pre: string, sign: string, d: string, post: string)
    requires AllIntSpace(pre) && AllIntSpace(post)
    requires sign == [] || sign == "+" || sign == "-"
    requires IsDigitString(d)
    ensures ParseInt(pre + sign + d + post) == Some(if sign == "-" then -(DigitsValue(d) as int) else DigitsValue(d) as int)
  {
    SignThenDigits(sign, d);
    ParseIntPaddedSigned(pre, sign + d, post);
    Seqs.Assoc(pre, sign, d);
  }

  /** An optional sign followed by a digit string reads as its value. */
  lemma SignThenDigits(sign: string, d: string)
    requires sign == [] || sign == "+" || sign == "-"
    requires IsDigitString(d)
    ensures ParseSigned(sign + d) == Some(if sign == "-" then -(DigitsValue(d) as int) else DigitsValue(d) as int)
  {
    if sign == [] {
      assert sign + d == d;
    } else {
      assert (sign + d)[0] == sign[0] && (sign + d)[1..] == d;
    }
  }

  /** Leading zeros: int("007") is 7. */
  lemma ParseIntLeadingZeros()
    ensures ParseInt("007") == Some(7)
  {
    assert "007"[1..] == "07" && "07"[1..] == "7";
    assert IsDigitString("7") && IsDigitString("07") && IsDigitString("007");
    assert "007"[..2] == "00" && "00"[..1] == "0";
    assert DigitsValue("007") == 7;
    ParseIntAccepts([], [], "007", []);
    assert [] + [] + "007" + [] == "007";
  }

  /** str.strip() removes an information separator, but int() rejects it. */
  lemma ParseIntRejectsInfoSeparator()
    ensures Strip("\U{1C}5") == "5" && ParseInt("\U{1C}5") == None
  {
    assert IsSpace("\U{1C}5"[0]);
    StripSurrounded("\U{1C}", "5", []);
    assert "\U{1C}" + "5" + [] == "\U{1C}5";
    assert IsInfoSeparator("\U{1C}5"[0]);
  }

  /** Likewise for a trailing separator. */
  lemma ParseIntRejectsTrailingSeparator()
    ensures ParseInt("7\U{1F}") == None
  {
    assert IsInfoSeparator("7\U{1F}"[1]);
  }

  /** Text with no surrounding whitespace is its own strip. */
  lemma StripTrimmed(s: string)
    requires Trimmed(s)
    ensures Strip(s) == s
  {
    StripSurrounded([], s, []);
    assert [] + s + [] == s;
  }

  /** Underscores between digits are ignored. */
  lemma ParseIntIgnoresUnderscore()
    ensures ParseInt("1_000") == Some(1000)
  {
    assert "1_000"[2..] == "000" && "000"[1..] == "00" && "00"[1..] == "0";
    assert IsDigitString("0") && IsDigitString("00") && IsDigitString("000");
    assert IsDigitString("1_000");
    assert "1_000"[..4] == "1_00" && "1_00"[..3] == "1_0" && "1_0"[..2] == "1_" && "1_"[..1] == "1";
    assert DigitsValue("1") == 1;
    assert DigitsValue("1_") == 1;
    assert DigitsValue("1_0") == 10;
    assert DigitsValue("1_00") == 100;
    assert DigitsValue("1_000") == 1000;
    ParseIntOfSigned("1_000");
  }

  /** A sign may lead. */
  lemma ParseIntSigned()
    ensures ParseInt("-7") == Some(-7) && ParseInt("+7") == Some(7)
  {
    assert "-7"[1..] == "7" && "+7"[1..] == "7";
    ParseIntOfSigned("-7");
    ParseIntOfSigned("+7");
  }

  /** A letter makes int() fail. */
  lemma ParseIntRejectsLetter()
    ensures ParseInt("12a") == None
  {
    StripTrimmed("12a");
    assert "12a"[1..] == "2a" && "2a"[1..] == "a";
  }

  /** A dot makes int() fail: int() takes no decimal fraction from text. */
  lemma ParseIntRejectsDot()
    ensures ParseInt("1.5") == None
  {
    StripTrimmed("1.5");
    assert "1.5"[1..] == ".5";
  }

  /** Whitespace inside the digits makes int() fail. */
  lemma ParseIntRejectsInnerSpace()
    ensures ParseInt("1 2") == None
  {
    StripTrimmed("1 2");
    assert "1 2"[1..] == " 2";
  }

  /** An underscore must sit between two digits. */
  lemma ParseIntRejectsStrayUnderscore()
    ensures ParseInt("1__0") == None && ParseInt("_1") == None && ParseInt("1_") == None
  {
    StripTrimmed("1__0");
    assert "1__0"[2..] == "_0";
    StripTrimmed("_1");
    StripTrimmed("1_");
  }

  /** Empty text and a bare sign are not integers. */
  lemma ParseIntRejectsNoDigits()
    ensures ParseInt("") == None && ParseInt("-") == None
  {
    StripTrimmed("-");
    assert "-"[1..] == [];
  }

  /** str(n) for a natural number: its decimal digits, no leading zero. */
  function NatToString(n: nat): (s: string)
    ensures |s| > 0
    ensures forall k :: 0 <= k < |s| ==> IsDigit(s[k])
    ensures |s| > 1 ==> s[0] != '0'
  {
    if n < 10 then [DigitChar(n)] else NatToString(n / 10) + [DigitChar(n % 10)]
  }

  /** str(n) for an integer, as in the f-strings that build request URLs. */
  function IntToString(n: int): (s: string)
    ensures |s| > 0 && Trimmed(s)
  {
    if n < 0 then "-" + NatToString(-n) else NatToString(n)
  }

  lemma {:induction false} NatToStringValue(n: nat)
    ensures DigitsValue(NatToString(n)) == n
    decreases n
  {
    if n >= 10 {
      var s := NatToString(n);
      NatToStringValue(n / 10);
      assert s[..|s| - 1] == NatToString(n / 10);
    }
  }

  /** The sign and digits of str(n) read back as n. */
  lemma ParseSignedToString(n: int)
    ensures ParseSigned(IntToString(n)) == Some(n)
  {
    var s := IntToString(n);
    if n < 0 {
      var body := NatToString(-n);
      assert s[1..] == body;
      NatToStringValue(-n);
      AllDigitsIsDigitString(body);
    } else {
      NatToStringValue(n);
      AllDigitsIsDigitString(s);
    }
  }

  /** int(str(n)) == n: the decimal text of every integer parses back to it. */
  lemma ParseIntToString(n: int)
    ensures ParseInt(IntToString(n)) == Some(n)
  {
    ParseSignedToString(n);
    ParseIntOfSigned(IntToString(n));
  }
}
