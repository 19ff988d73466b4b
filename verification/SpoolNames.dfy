/** Names of spooled batch files: `<boot>_<first, 20 digits>_<last, 20 digits>.pb`,
    the sanitizing of boot identifiers, and the order of names. */
module SpoolNames {
  import opened Wrappers

  const UINT64_LIMIT: nat := 0x1_0000_0000_0000_0000
  const SEQUENCE_WIDTH: nat := 20
  const MAXIMUM_BOOT_LENGTH: nat := 64
  const SUFFIX: string := ".pb"

  // ----- Boot identifiers -----

  predicate BootChar(c: char) {
    'a' <= c <= 'f' || 'A' <= c <= 'F' || '0' <= c <= '9' || c == '-'
  }

  predicate IsBootId(s: string) {
    && 1 <= |s| <= MAXIMUM_BOOT_LENGTH
    && forall i :: 0 <= i < |s| ==> BootChar(s[i])
  }

  /** Unicode white space, as trimmed by Go's strings.TrimSpace. */
  predicate IsSpace(c: char) {
    var code := c as int;
    || 0x09 <= code <= 0x0d || code == 0x20 || code == 0x85 || code == 0xa0
    || code == 0x1680 || 0x2000 <= code <= 0x200a || code == 0x2028 || code == 0x2029
    || code == 0x202f || code == 0x205f || code == 0x3000
  }

  predicate AllSpace(s: string) {
    forall i :: 0 <= i < |s| ==> IsSpace(s[i])
  }

  function TrimLeft(s: string): string {
    if s != [] && IsSpace(s[0]) then TrimLeft(s[1..]) else s
  }

  function TrimRight(s: string): string {
    if s != [] && IsSpace(s[|s| - 1]) then TrimRight(s[..|s| - 1]) else s
  }

  /** The empty string stands for "not a valid boot identifier". */
  function Sanitize(value: string): string {
    var trimmed := TrimRight(TrimLeft(value));
    if IsBootId(trimmed) then trimmed else ""
  }

  lemma {:induction false} TrimLeftSplits(s: string) returns (pad: string)
    ensures AllSpace(pad) && s == pad + TrimLeft(s)
  {
    if s != [] && IsSpace(s[0]) {
      var rest := TrimLeftSplits(s[1..]);
      pad := [s[0]] + rest;
      assert s == [s[0]] + s[1..];
    } else {
      pad := "";
    }
  }

  lemma {:induction false} TrimRightSplits(s: string) returns (pad: string)
    ensures AllSpace(pad) && s == TrimRight(s) + pad
  {
    if s != [] && IsSpace(s[|s| - 1]) {
      var rest := TrimRightSplits(s[..|s| - 1]);
      pad := rest + [s[|s| - 1]];
      assert s == s[..|s| - 1] + [s[|s| - 1]];
    } else {
      pad := "";
    }
  }

  lemma {:induction false} TrimLeftOfPadded(pad: string, s: string)
    requires AllSpace(pad)
    requires s != [] && !IsSpace(s[0])
    ensures TrimLeft(pad + s) == s
  {
    if pad == [] {
      assert pad + s == s;
    } else {
      assert (pad + s)[1..] == pad[1..] + s;
      TrimLeftOfPadded(pad[1..], s);
    }
  }

  lemma {:induction false} TrimRightOfPadded(s: string, pad: string)
    requires AllSpace(pad)
    requires s != [] && !IsSpace(s[|s| - 1])
    ensures TrimRight(s + pad) == s
  {
    if pad == [] {
      assert s + pad == s;
    } else {
      assert (s + pad)[..|s + pad| - 1] == s + pad[..|pad| - 1];
      TrimRightOfPadded(s, pad[..|pad| - 1]);
    }
  }

  lemma {:induction false} BootCharsAreNotSpace(s: string)
    requires IsBootId(s)
    ensures forall i :: 0 <= i < |s| ==> !IsSpace(s[i])
  {
  }

  /** Sanitizing yields b exactly when the input is b with white space around it. */
  lemma {:induction false} SanitizeExactly(value: string, b: string)
    requires IsBootId(b)
    ensures Sanitize(value) == b
      <==> exists left, right :: AllSpace(left) && AllSpace(right) && value == left + b + right
  {
    BootCharsAreNotSpace(b);
    if Sanitize(value) == b {
      var left := TrimLeftSplits(value);
      var right := TrimRightSplits(TrimLeft(value));
      assert value == left + b + right;
    }
    if exists left, right :: AllSpace(left) && AllSpace(right) && value == left + b + right {
      var left, right :| AllSpace(left) && AllSpace(right) && value == left + b + right;
      assert value == left + (b + right);
      TrimLeftOfPadded(left, b + right);
      TrimRightOfPadded(b, right);
    }
  }

  lemma {:induction false} SanitizeIsIdempotent(value: string)
    ensures Sanitize(value) == "" || IsBootId(Sanitize(value))
    ensures Sanitize(Sanitize(value)) == Sanitize(value)
  {
    if Sanitize(value) != "" {
      var b := Sanitize(value);
      SanitizeExactly(b, b);
      assert b == "" + b + "";
    }
  }

  lemma {:induction false} SanitizeKeepsBootIds(b: string)
    requires IsBootId(b)
    ensures Sanitize(b) == b
  {
    SanitizeExactly(b, b);
    assert b == "" + b + "";
  }

  /** A text of one to sixty-four characters is kept exactly when all of them are hexadecimal digits or dashes. */
  lemma {:induction false} SanitizeKeepsExactly(s: string)
    ensures Sanitize(s) == s <==> |s| <= 64 && forall i :: 0 <= i < |s| ==> s[i] in "0123456789abcdefABCDEF-"
  {
    BootChars();
    if s == [] {
      assert Sanitize(s) == s;
    } else if IsBootId(s) {
      SanitizeKeepsBootIds(s);
    } else {
      SanitizeIsIdempotent(s);
    }
  }

  lemma {:induction false} BootChars()
    ensures forall c :: BootChar(c) <==> c in "0123456789abcdefABCDEF-"
  {
    forall c ensures BootChar(c) <==> c in "0123456789abcdefABCDEF-" {
      if BootChar(c) {
        BootCharListed(c);
      }
    }
  }

  lemma {:induction false} BootCharListed(c: char)
    requires BootChar(c)
    ensures c in "0123456789abcdefABCDEF-"
  {
    var s := "0123456789abcdefABCDEF-";
    var i := if '0' <= c <= '9' then (c - '0') as int
             else if 'a' <= c <= 'f' then 10 + (c - 'a') as int
             else if 'A' <= c <= 'F' then 16 + (c - 'A') as int else 22;
    assert s[i] == c;
  }

  /** One character around a kept text is trimmed exactly if it is white space. */
  lemma {:induction false} TrimmedExactly(c: char, b: string)
    requires b != "" && Sanitize(b) == b
    ensures Sanitize([c] + b) == b <==> c as int in WHITE_SPACE
    ensures Sanitize(b + [c]) == b <==> c as int in WHITE_SPACE
  {
    SanitizeIsIdempotent(b);
    BootCharsAreNotSpace(b);
    assert IsSpace(c) <==> c as int in WHITE_SPACE;
    assert [c] + b == [c] + b + "" && b + [c] == "" + b + [c];
    if IsSpace(c) {
      assert AllSpace([c]) && AllSpace("");
      SanitizeExactly([c] + b, b);
      SanitizeExactly(b + [c], b);
    } else {
      UntrimmedIsWhole([c] + b);
      UntrimmedIsWhole(b + [c]);
    }
  }

  lemma {:induction false} UntrimmedIsWhole(s: string)
    requires s != "" && !IsSpace(s[0]) && !IsSpace(s[|s| - 1])
    ensures Sanitize(s) == s || Sanitize(s) == ""
  {
    assert "" + s == s && s + "" == s;
    TrimLeftOfPadded("", s);
    TrimRightOfPadded(s, "");
  }

  /** The code points that Go's unicode.IsSpace accepts. */
  const WHITE_SPACE: set<int> :=
    {0x09, 0x0a, 0x0b, 0x0c, 0x0d, 0x20, 0x85, 0xa0, 0x1680, 0x2000, 0x2001, 0x2002, 0x2003, 0x2004, 0x2005, 0x2006,
     0x2007, 0x2008, 0x2009, 0x200a, 0x2028, 0x2029, 0x202f, 0x205f, 0x3000}

  /** Eight, four, four, four and twelve hexadecimal digits joined by dashes, as the kernel writes a boot identifier. */
  predicate IsUuid(s: string) {
    && |s| == 36
    && forall i :: 0 <= i < 36 ==>
         if i == 8 || i == 13 || i == 18 || i == 23 then s[i] == '-' else s[i] in "0123456789abcdefABCDEF"
  }

  lemma {:induction false} UuidIsKept(s: string)
    requires IsUuid(s)
    ensures Sanitize(s) == s
  {
    SanitizeKeepsExactly(s);
    assert "0123456789abcdefABCDEF-" == "0123456789abcdefABCDEF" + "-";
    forall i | 0 <= i < |s| ensures s[i] in "0123456789abcdefABCDEF-" {
      if s[i] == '-' {
        assert "0123456789abcdefABCDEF-"[22] == '-';
      }
    }
  }

  // ----- Fixed-width decimal numbers -----

  predicate IsDigit(c: char) {
    '0' <= c <= '9'
  }

  predicate AllDigits(s: string) {
    forall i :: 0 <= i < |s| ==> IsDigit(s[i])
  }

  function Power10(width: nat): nat {
    if width == 0 then 1 else 10 * Power10(width - 1)
  }

  function Digit(n: nat): char
    requires n < 10
  {
    '0' + n as char
  }

  /** The last `width` decimal digits of n, most significant first. */
  function Pad(n: nat, width: nat): (s: string)
    ensures |s| == width && AllDigits(s)
  {
    if width == 0 then "" else Pad(n / 10, width - 1) + [Digit(n % 10)]
  }

  function Value(s: string): nat
    requires AllDigits(s)
  {
    if s == [] then 0
    else 10 * Value(s[..|s| - 1]) + (s[|s| - 1] as nat - '0' as nat)
  }

  lemma {:induction false} ValueOfPad(n: nat, width: nat)
    requires n < Power10(width)
    ensures Value(Pad(n, width)) == n
  {
    if width > 0 {
      ValueOfPad(n / 10, width - 1);
      var s := Pad(n, width);
      assert s[..|s| - 1] == Pad(n / 10, width - 1);
    }
  }

  lemma {:induction false} PadOfValue(s: string)
    requires AllDigits(s)
    ensures Value(s) < Power10(|s|)
    ensures Pad(Value(s), |s|) == s
  {
    if s != [] {
      var front := s[..|s| - 1];
      PadOfValue(front);
      assert Value(s) / 10 == Value(front);
      assert s == front + [s[|s| - 1]];
    }
  }

  lemma {:induction false} Uint64FitsWidth()
    ensures UINT64_LIMIT <= Power10(SEQUENCE_WIDTH)
  {
    assert Power10(4) == 10_000;
    assert Power10(8) == 10_000 * Power10(4);
    assert Power10(12) == 10_000 * Power10(8);
    assert Power10(16) == 10_000 * Power10(12);
    assert Power10(20) == 10_000 * Power10(16);
  }

  // ----- Formatting and parsing -----

  datatype Parts = Parts(bootId: string, first: nat, last: nat)

  predicate ValidParts(parts: Parts) {
    IsBootId(parts.bootId) && parts.first < UINT64_LIMIT && parts.last < UINT64_LIMIT
  }

  function Tail(first: string, last: string): string {
    "_" + first + "_" + last + SUFFIX
  }

  function Format(parts: Parts): string {
    parts.bootId + Tail(Pad(parts.first, SEQUENCE_WIDTH), Pad(parts.last, SEQUENCE_WIDTH))
  }

  /** The file-name pattern, before the two numbers are read as 64-bit values. */
  predicate Matches(name: string) {
    && |name| >= 45
    && var n := |name| - 45;
    && IsBootId(name[..n])
    && name[n] == '_' && AllDigits(name[n + 1..n + 21])
    && name[n + 21] == '_' && AllDigits(name[n + 22..n + 42])
    && name[n + 42..] == SUFFIX
  }

  function Parse(name: string): Option<Parts> {
    if !Matches(name) then None
    else
      var n := |name| - 45;
      var first := Value(name[n + 1..n + 21]);
      var last := Value(name[n + 22..n + 42]);
      if first >= UINT64_LIMIT || last >= UINT64_LIMIT then None
      else Some(Parts(name[..n], first, last))
  }

  /** The number that decimal digits stand for when they are read from the left, after `read`. */
  function Decimal(s: string, read: nat): nat
    requires forall i :: 0 <= i < |s| ==> s[i] in "0123456789"
    decreases |s|
  {
    if s == [] then read else Decimal(s[1..], 10 * read + (s[0] as int - 48))
  }

  lemma {:induction false} DigitsAreListed(s: string)
    requires AllDigits(s)
    ensures forall i :: 0 <= i < |s| ==> s[i] in "0123456789"
  {
    forall i | 0 <= i < |s| ensures s[i] in "0123456789" {
      assert "0123456789"[s[i] as int - 48] == s[i];
    }
  }

  lemma {:induction false} DecimalOfMore(s: string, c: char, read: nat)
    requires AllDigits(s) && IsDigit(c)
    requires forall i :: 0 <= i < |s| ==> s[i] in "0123456789"
    requires forall i :: 0 <= i < |s + [c]| ==> (s + [c])[i] in "0123456789"
    ensures Decimal(s + [c], read) == 10 * Decimal(s, read) + (c as int - 48)
    decreases |s|
  {
    if s == [] {
      assert s + [c] == [c] && [c][1..] == [];
    } else {
      assert (s + [c])[1..] == s[1..] + [c];
      DecimalOfMore(s[1..], c, 10 * read + (s[0] as int - 48));
    }
  }

  lemma {:induction false} ValueIsDecimal(s: string)
    requires AllDigits(s) && forall i :: 0 <= i < |s| ==> s[i] in "0123456789"
    ensures Value(s) == Decimal(s, 0)
  {
    if s != [] {
      var front := s[..|s| - 1];
      ValueIsDecimal(front);
      assert s == front + [s[|s| - 1]];
      DecimalOfMore(front, s[|s| - 1], 0);
    }
  }

  /** A name is the boot and two decimal numbers of twenty digits each, joined by underscores, and the suffix. */
  lemma {:induction false} NameIsSpelled(parts: Parts) returns (first: string, last: string)
    requires IsBootId(parts.bootId)
    requires parts.first < 18_446_744_073_709_551_616 && parts.last < 18_446_744_073_709_551_616
    ensures Parse(Format(parts)) == Some(parts)
    ensures Format(parts) == parts.bootId + "_" + first + "_" + last + ".pb" && |first| == 20 && |last| == 20
    ensures forall i :: 0 <= i < 20 ==> first[i] in "0123456789" && last[i] in "0123456789"
    ensures Decimal(first, 0) == parts.first && Decimal(last, 0) == parts.last
  {
    ParseFormat(parts);
    first, last := Pad(parts.first, 20), Pad(parts.last, 20);
    DigitsAreListed(first);
    DigitsAreListed(last);
    Uint64FitsWidth();
    ValueOfPad(parts.first, 20);
    ValueOfPad(parts.last, 20);
    ValueIsDecimal(first);
    ValueIsDecimal(last);
    hide Pad, Power10, Value, Decimal, IsBootId;
    assert Format(parts) == parts.bootId + "_" + first + "_" + last + ".pb";
  }

  /** Parsing undoes formatting, for every boot identifier and every pair of 64-bit sequences. */
  lemma {:induction false} ParseFormat(parts: Parts)
    requires ValidParts(parts)
    ensures Matches(Format(parts))
    ensures Parse(Format(parts)) == Some(parts)
  {
    var name := Format(parts);
    var n := |name| - 45;
    assert name[..n] == parts.bootId;
    assert name[n + 1..n + 21] == Pad(parts.first, SEQUENCE_WIDTH);
    assert name[n + 22..n + 42] == Pad(parts.last, SEQUENCE_WIDTH);
    assert name[n + 42..] == SUFFIX;
    Uint64FitsWidth();
    ValueOfPad(parts.first, SEQUENCE_WIDTH);
    ValueOfPad(parts.last, SEQUENCE_WIDTH);
  }

  /** Formatting undoes parsing, so two different names never index as the same batch. */
  lemma {:induction false} FormatParse(name: string)
    requires Parse(name).Some?
    ensures ValidParts(Parse(name).value)
    ensures var parts := Parse(name).value;
            parts.first < 18_446_744_073_709_551_616 && parts.last < 18_446_744_073_709_551_616
    ensures Format(Parse(name).value) == name
  {
    var n := |name| - 45;
    var first, last := name[n + 1..n + 21], name[n + 22..n + 42];
    PadOfValue(first);
    PadOfValue(last);
    SplitName(name, n);
  }

  lemma {:induction false} SplitName(name: string, n: nat)
    requires |name| == n + 45 && Matches(name)
    ensures name == name[..n] + Tail(name[n + 1..n + 21], name[n + 22..n + 42])
  {
    assert name[n..] == Tail(name[n + 1..n + 21], name[n + 22..n + 42]);
  }

  /** The pattern of a file name, written out. */
  predicate Spelled(name: string, boot: string, first: string, last: string) {
    && name == boot + "_" + first + "_" + last + ".pb" && 1 <= |boot| <= 64 && |first| == 20 && |last| == 20
    && (forall i :: 0 <= i < |boot| ==> boot[i] in "0123456789abcdefABCDEF-")
    && forall i :: 0 <= i < 20 ==> first[i] in "0123456789" && last[i] in "0123456789"
  }

  lemma {:induction false} MatchesExactly(name: string)
    ensures Matches(name) <==> exists boot, first, last :: Spelled(name, boot, first, last)
  {
    hide Matches, Spelled;
    if Matches(name) {
      var boot, first, last := MatchesSpelled(name);
    }
    if boot, first, last :| Spelled(name, boot, first, last) {
      SpelledMatches(name, boot, first, last);
    }
  }

  lemma {:induction false} MatchesSpelled(name: string) returns (boot: string, first: string, last: string)
    requires Matches(name)
    ensures Spelled(name, boot, first, last)
  {
    var n := |name| - 45;
    boot, first, last := name[..n], name[n + 1..n + 21], name[n + 22..n + 42];
    SplitName(name, n);
    DigitsAreListed(first);
    DigitsAreListed(last);
    BootChars();
    hide BootChar;
    assert name == boot + "_" + first + "_" + last + ".pb";
  }

  lemma {:induction false} SpelledMatches(name: string, boot: string, first: string, last: string)
    requires Spelled(name, boot, first, last)
    ensures Matches(name)
  {
    BootChars();
    hide BootChar;
    var n := |boot|;
    assert name[..n] == boot && name[n + 1..n + 21] == first && name[n + 22..n + 42] == last;
    assert name[n + 42..] == ".pb";
  }

  lemma {:induction false} FormatIsInjective(a: Parts, b: Parts)
    requires ValidParts(a) && ValidParts(b)
    requires Format(a) == Format(b)
    ensures a == b
  {
    ParseFormat(a);
    ParseFormat(b);
  }

  // ----- Lexicographic order -----

  predicate LexLess(a: string, b: string) {
    b != [] && (a == [] || a[0] < b[0] || (a[0] == b[0] && LexLess(a[1..], b[1..])))
  }

  lemma {:induction false} LexIrreflexive(a: string)
    ensures !LexLess(a, a)
  {
    if a != [] {
      LexIrreflexive(a[1..]);
    }
  }

  lemma {:induction false} LexTransitive(a: string, b: string, c: string)
    requires LexLess(a, b) && LexLess(b, c)
    ensures LexLess(a, c)
  {
    if a != [] && a[0] == b[0] && b[0] == c[0] {
      LexTransitive(a[1..], b[1..], c[1..]);
    }
  }

  lemma {:induction false} LexTotal(a: string, b: string)
    ensures LexLess(a, b) || a == b || LexLess(b, a)
  {
    if a != [] && b != [] && a[0] == b[0] {
      LexTotal(a[1..], b[1..]);
      assert a == [a[0]] + a[1..] && b == [b[0]] + b[1..];
    }
  }

  lemma {:induction false} LexSharedPrefix(p: string, a: string, b: string)
    ensures LexLess(p + a, p + b) == LexLess(a, b)
  {
    if p == [] {
      assert p + a == a && p + b == b;
    } else {
      assert (p + a)[1..] == p[1..] + a && (p + b)[1..] == p[1..] + b;
      LexSharedPrefix(p[1..], a, b);
    }
  }

  lemma {:induction false} LexEqualLength(x: string, y: string, a: string, b: string)
    requires |x| == |y|
    ensures LexLess(x + a, y + b) <==> LexLess(x, y) || (x == y && LexLess(a, b))
  {
    if x == [] {
      assert x + a == a && y + b == b;
    } else {
      assert (x + a)[1..] == x[1..] + a && (y + b)[1..] == y[1..] + b;
      LexEqualLength(x[1..], y[1..], a, b);
      assert x == [x[0]] + x[1..] && y == [y[0]] + y[1..];
    }
  }

  lemma {:induction false} PadOrder(m: nat, n: nat, width: nat)
    requires m < Power10(width) && n < Power10(width)
    ensures LexLess(Pad(m, width), Pad(n, width)) <==> m < n
    ensures Pad(m, width) == Pad(n, width) <==> m == n
  {
    ValueOfPad(m, width);
    ValueOfPad(n, width);
    if width > 0 {
      PadOrder(m / 10, n / 10, width - 1);
      LexEqualLength(Pad(m / 10, width - 1), Pad(n / 10, width - 1), [Digit(m % 10)], [Digit(n % 10)]);
    }
  }

  /** Among the batches of one boot, the order of names is the numeric order of (first, last). */
  lemma {:induction false} NameOrderIsSequenceOrder(a: Parts, b: Parts)
    requires ValidParts(a) && ValidParts(b) && a.bootId == b.bootId
    ensures LexLess(Format(a), Format(b))
      <==> a.first < b.first || (a.first == b.first && a.last < b.last)
  {
    Uint64FitsWidth();
    PadOrder(a.first, b.first, SEQUENCE_WIDTH);
    PadOrder(a.last, b.last, SEQUENCE_WIDTH);
    TailOrder(a.bootId, Pad(a.first, SEQUENCE_WIDTH), Pad(a.last, SEQUENCE_WIDTH),
              Pad(b.first, SEQUENCE_WIDTH), Pad(b.last, SEQUENCE_WIDTH));
  }

  lemma {:induction false} TailOrder(prefix: string, x: string, y: string, x': string, y': string)
    requires |x| == |x'| && |y| == |y'|
    ensures LexLess(prefix + Tail(x, y), prefix + Tail(x', y'))
      <==> LexLess(x, x') || (x == x' && LexLess(y, y'))
  {
    var rest, rest' := y + SUFFIX, y' + SUFFIX;
    assert Tail(x, y) == "_" + (x + ("_" + rest)) && Tail(x', y') == "_" + (x' + ("_" + rest'));
    LexSharedPrefix(prefix, Tail(x, y), Tail(x', y'));
    LexSharedPrefix("_", x + ("_" + rest), x' + ("_" + rest'));
    LexEqualLength(x, x', "_" + rest, "_" + rest');
    LexSharedPrefix("_", rest, rest');
    LexEqualLength(y, y', SUFFIX, SUFFIX);
    LexIrreflexive(SUFFIX);
  }
}
