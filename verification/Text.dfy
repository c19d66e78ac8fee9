/**
 The text operations that the panel (Python) and the engine (Go) both rely on, over ASCII:
 lower-casing, stripping, splitting and joining on one separator, decimal numbers, and
 sorting without duplicates.
 */
module Text {

  datatype Option<+T> = None | Some(value: T)

  // --- case and white space ---

  function LowerChar(c: char): char {
    if 'A' <= c <= 'Z' then (c as int + 32) as char else c
  }

  function Lower(s: string): (r: string)
    ensures |r| == |s|
    ensures forall i :: 0 <= i < |s| ==> r[i] == LowerChar(s[i])
  {
    seq(|s|, i requires 0 <= i < |s| => LowerChar(s[i]))
  }

  function LowerAll(names: seq<string>): seq<string> {
    if names == [] then [] else [Lower(names[0])] + LowerAll(names[1..])
  }

  lemma LowerConcat(a: string, b: string)
    ensures Lower(a + b) == Lower(a) + Lower(b)
  {
  }

  lemma LowerIdempotent(s: string)
    ensures Lower(Lower(s)) == Lower(s)
  {
  }

  // Lower-casing neither creates nor removes a character that is not a letter.
  lemma LowerKeepsNonLetters(s: string, c: char)
    requires !('a' <= c <= 'z') && !('A' <= c <= 'Z')
    ensures c in Lower(s) <==> c in s
  {
    if c in s {
      var i :| 0 <= i < |s| && s[i] == c;
      assert Lower(s)[i] == c;
    }
    if c in Lower(s) {
      var i :| 0 <= i < |s| && Lower(s)[i] == c;
      assert s[i] == c;
    }
  }

  // An upper and a lower letter of one pair.
  predicate CasePair(c: char, d: char) {
    65 <= c as int <= 90 && d as int == c as int + 32
  }

  // The texts are equal up to the case of their letters.
  predicate SameButCase(a: string, b: string) {
    |a| == |b| && forall i :: 0 <= i < |a| ==> a[i] == b[i] || CasePair(a[i], b[i]) || CasePair(b[i], a[i])
  }

  predicate NoUpper(s: string) {
    forall c :: c in s ==> !(65 <= c as int <= 90)
  }

  // The lower-cased text is the one text without upper letters that differs in case only.
  lemma LowerMeans(s: string, r: string)
    ensures r == Lower(s) <==> NoUpper(r) && SameButCase(s, r)
  {
    if r == Lower(s) {
      forall c | c in r
        ensures !(65 <= c as int <= 90)
      {
        var i :| 0 <= i < |r| && r[i] == c;
        assert r[i] == LowerChar(s[i]);
      }
    }
    if NoUpper(r) && SameButCase(s, r) {
      forall i | 0 <= i < |s|
        ensures r[i] == Lower(s)[i]
      {
        assert r[i] in r;
      }
    }
  }

  lemma LowerEqualIff(a: string, b: string)
    ensures Lower(a) == Lower(b) <==> SameButCase(a, b)
  {
    if |a| == |b| {
      forall i | 0 <= i < |a|
        ensures Lower(a)[i] == Lower(b)[i] <==> a[i] == b[i] || CasePair(a[i], b[i]) || CasePair(b[i], a[i])
      {
        assert Lower(a)[i] == LowerChar(a[i]) && Lower(b)[i] == LowerChar(b[i]);
      }
    }
  }

  // What `str.strip` removes.
  predicate IsSpace(c: char) {
    '\t' <= c <= '\r' || '\U{1c}' <= c <= ' '
  }

  function StripLeft(s: string): string {
    if s != "" && IsSpace(s[0]) then StripLeft(s[1..]) else s
  }

  function StripRight(s: string): string {
    if s != "" && IsSpace(s[|s| - 1]) then StripRight(s[..|s| - 1]) else s
  }

  function Strip(s: string): string {
    StripRight(StripLeft(s))
  }

  // Nothing to strip at either end.
  predicate Trimmed(s: string) {
    s != "" ==> !IsSpace(s[0]) && !IsSpace(s[|s| - 1])
  }

  lemma StripOfTrimmed(s: string)
    requires Trimmed(s)
    ensures Strip(s) == s
  {
  }

  lemma StripLeftFacts(s: string)
    ensures StripLeft(s) != "" ==> !IsSpace(StripLeft(s)[0])
    ensures forall c :: c in StripLeft(s) ==> c in s
  {
  }

  lemma StripRightFacts(s: string)
    ensures StripRight(s) != "" ==> !IsSpace(StripRight(s)[|StripRight(s)| - 1])
    ensures StripRight(s) <= s
  {
  }

  lemma StripTrims(s: string)
    ensures Trimmed(Strip(s))
    ensures forall c :: c in Strip(s) ==> c in s
  {
    StripLeftFacts(s);
    StripRightFacts(StripLeft(s));
  }

  // White space by its codes: tab to carriage return, and the separators up to the blank.
  predicate Blank(s: string) {
    forall c :: c in s ==> 9 <= c as int <= 13 || 28 <= c as int <= 32
  }

  // What is stripped is white space, and none is left at either end.
  lemma StripMeans(s: string) returns (l: string, r: string)
    ensures s == l + Strip(s) + r && Blank(l) && Blank(r)
    ensures Strip(s) != "" ==> !Blank([Strip(s)[0]]) && !Blank([Strip(s)[|Strip(s)| - 1]])
  {
    l := LeftPart(s);
    r := RightPart(StripLeft(s));
    StripTrims(s);
    assert s == l + (Strip(s) + r);
    if Strip(s) != "" {
      assert Strip(s)[0] in [Strip(s)[0]] && Strip(s)[|Strip(s)| - 1] in [Strip(s)[|Strip(s)| - 1]];
    }
  }

  lemma {:induction false} LeftPart(s: string) returns (l: string)
    ensures s == l + StripLeft(s) && Blank(l)
  {
    l := "";
    if s != "" && IsSpace(s[0]) {
      var rest := LeftPart(s[1..]);
      l := [s[0]] + rest;
    }
  }

  lemma {:induction false} RightPart(s: string) returns (r: string)
    ensures s == StripRight(s) + r && Blank(r)
  {
    r := "";
    if s != "" && IsSpace(s[|s| - 1]) {
      var rest := RightPart(s[..|s| - 1]);
      r := rest + [s[|s| - 1]];
    }
  }

  // --- splitting and joining ---

  function Split(s: string, sep: char): (parts: seq<string>)
    ensures |parts| >= 1
  {
    if s == "" then [""]
    else if s[0] == sep then [""] + Split(s[1..], sep)
    else Prepend(s[0], Split(s[1..], sep))
  }

  function Join(parts: seq<string>, sep: char): string {
    if parts == [] then ""
    else if |parts| == 1 then parts[0]
    else parts[0] + [sep] + Join(parts[1..], sep)
  }

  // No part of a split contains the separator, and parts use only characters of the text.
  // Lower-casing and cutting at a character that is no letter commute.
  lemma {:induction false} SplitLower(s: string, sep: char)
    requires !('a' <= sep <= 'z') && !('A' <= sep <= 'Z')
    ensures Split(Lower(s), sep) == LowerAll(Split(s, sep))
  {
    if s != "" {
      SplitLower(s[1..], sep);
      assert Lower(s)[0] == LowerChar(s[0]) && Lower(s)[1..] == Lower(s[1..]);
      var rest := Split(s[1..], sep);
      if s[0] == sep {
        assert ([""] + rest)[1..] == rest && Lower("") == "";
      } else {
        assert (s[0] != sep) && LowerChar(s[0]) != sep;
        assert Lower([s[0]] + rest[0]) == [LowerChar(s[0])] + Lower(rest[0]);
        assert Prepend(s[0], rest)[1..] == rest[1..];
      }
    } else {
      assert Lower("") == "" && [""][1..] == [];
    }
  }

  lemma {:induction false} SplitParts(s: string, sep: char)
    ensures forall p :: p in Split(s, sep) ==> sep !in p
    ensures forall p, c :: p in Split(s, sep) && c in p ==> c in s
  {
    if s != "" {
      SplitParts(s[1..], sep);
      var rest := Split(s[1..], sep);
      assert rest[0] in rest;
      if s[0] != sep {
        forall p | p in Split(s, sep)
          ensures sep !in p && forall c :: c in p ==> c in s
        {
          assert p == [s[0]] + rest[0] || p in rest;
        }
      }
    }
  }

  // Put a character in front of the first part.
  function Prepend(c: char, parts: seq<string>): seq<string>
    requires parts != []
  {
    [[c] + parts[0]] + parts[1..]
  }

  lemma PrependConcat(c: char, l: seq<string>, r: seq<string>)
    requires l != []
    ensures Prepend(c, l + r) == Prepend(c, l) + r
  {
  }

  // Splitting distributes over a separator.
  lemma {:induction false} SplitAt(s: string, sep: char, i: nat)
    requires i < |s| && s[i] == sep
    ensures Split(s, sep) == Split(s[..i], sep) + Split(s[i + 1..], sep)
  {
    if i > 0 {
      SplitAt(s[1..], sep, i - 1);
      assert s[1..][..i - 1] == s[..i][1..] && s[1..][i..] == s[i + 1..];
      if s[0] != sep {
        PrependConcat(s[0], Split(s[..i][1..], sep), Split(s[i + 1..], sep));
      }
    }
  }

  lemma SplitConcat(a: string, sep: char, b: string)
    ensures Split(a + [sep] + b, sep) == Split(a, sep) + Split(b, sep)
  {
    hide Split;
    var whole := a + [sep] + b;
    assert whole[..|a|] == a && whole[|a| + 1..] == b;
    SplitAt(whole, sep, |a|);
  }

  // A text splits into a single part exactly when it does not contain the separator.
  lemma {:induction false} SplitSingle(s: string, sep: char)
    ensures sep !in s ==> Split(s, sep) == [s]
    ensures sep in s ==> |Split(s, sep)| >= 2
  {
    if s != "" {
      SplitSingle(s[1..], sep);
      if s[0] != sep && sep !in s[1..] {
        assert [s[0]] + s[1..] == s;
      }
    }
  }

  lemma {:induction false} SplitJoin(parts: seq<string>, sep: char)
    requires parts != []
    requires forall p :: p in parts ==> sep !in p
    ensures Split(Join(parts, sep), sep) == parts
  {
    SplitSingle(parts[0], sep);
    if |parts| > 1 {
      SplitJoin(parts[1..], sep);
      SplitConcat(parts[0], sep, Join(parts[1..], sep));
    }
  }

  lemma {:induction false} JoinSplit(s: string, sep: char)
    ensures Join(Split(s, sep), sep) == s
  {
    if s != "" {
      JoinSplit(s[1..], sep);
      var rest := Split(s[1..], sep);
      if s[0] == sep {
        assert ([""] + rest)[1..] == rest;
      } else {
        assert ([[s[0]] + rest[0]] + rest[1..])[1..] == rest[1..];
      }
    }
  }

  lemma {:induction false} JoinChars(parts: seq<string>, sep: char, c: char)
    requires c in Join(parts, sep)
    ensures c == sep || exists p :: p in parts && c in p
  {
    if |parts| == 1 {
      assert parts[0] in parts;
    } else if |parts| > 1 && c !in parts[0] && c != sep {
      JoinChars(parts[1..], sep, c);
    }
  }

  // The host of a request, lower-cased and without the port.
  function HostPart(host: string): string {
    Split(Lower(host), ':')[0]
  }

  // Whatever follows the first colon does not count.
  lemma HostPartMeans(n: string, port: string)
    requires ':' !in n
    ensures HostPart(n) == Lower(n) && HostPart(n + ":" + port) == Lower(n)
  {
    LowerKeepsNonLetters(n, ':');
    SplitSingle(Lower(n), ':');
    LowerConcat(n + ":", port);
    LowerConcat(n, ":");
    assert Lower(":") == ":";
    SplitConcat(Lower(n), ':', Lower(port));
    assert Lower(n) + ":" + Lower(port) == Lower(n) + [':'] + Lower(port);
  }

  // --- decimal numbers ---

  predicate IsDigit(c: char) { '0' <= c <= '9' }

  function Digit(n: nat): char
    requires n < 10
  {
    ('0' as int + n) as char
  }

  function PrintNat(n: nat): (s: string)
    ensures s != "" && forall c :: c in s ==> IsDigit(c)
  {
    if n < 10 then [Digit(n)] else PrintNat(n / 10) + [Digit(n % 10)]
  }

  function PrintInt(n: int): string {
    if n < 0 then "-" + PrintNat(-n) else PrintNat(n)
  }

  // The value of a non-empty run of digits.
  function ParseNat(s: string): Option<nat> {
    if s == "" || !IsDigit(s[|s| - 1]) then None
    else
      var d := s[|s| - 1] as int - '0' as int;
      if |s| == 1 then Some(d)
      else match ParseNat(s[..|s| - 1])
        case None => None
        case Some(n) => Some(10 * n + d)
  }

  const MIN_INT64: int := -0x8000_0000_0000_0000
  const MAX_INT64: int := 0x7fff_ffff_ffff_ffff

  predicate FitsInt64(n: int) { MIN_INT64 <= n <= MAX_INT64 }

  function Unsigned(s: string): string {
    if s != "" && (s[0] == '-' || s[0] == '+') then s[1..] else s
  }

  // Go's strconv.Atoi / ParseInt(s, 10, 64): an optional sign, digits, and a 64-bit range.
  function ParseInt64(s: string): Option<int> {
    match ParseNat(Unsigned(s))
    case None => None
    case Some(n) =>
      var v := if s[0] == '-' then 0 - n else n as int;
      if FitsInt64(v) then Some(v) else None
  }

  // A run of decimal digits, by their codes, and its value.
  predicate Digits(s: string) {
    s != "" && forall i :: 0 <= i < |s| ==> 48 <= s[i] as int <= 57
  }

  function ValueOf(s: string): int {
    if s == "" then 0 else 10 * ValueOf(s[..|s| - 1]) + (s[|s| - 1] as int - 48)
  }

  lemma {:induction false} ParseNatSays(s: string)
    ensures ParseNat(s).Some? <==> Digits(s)
    ensures Digits(s) ==> ParseNat(s).value == ValueOf(s)
  {
    if |s| > 1 {
      var init := s[..|s| - 1];
      ParseNatSays(init);
      assert Digits(s) <==> Digits(init) && 48 <= s[|s| - 1] as int <= 57;
    } else if |s| == 1 {
      assert s[..0] == "";
    }
  }

  // The text is a sign, or none, and digits.
  predicate Decimal(s: string, sign: string, digits: string) {
    s == sign + digits && (sign == "" || sign == "+" || sign == "-") && Digits(digits)
  }

  function Signed(sign: string, value: int): int {
    if sign == "-" then -value else value
  }

  lemma DecimalIs(s: string, sign: string, digits: string)
    requires Decimal(s, sign, digits)
    ensures Unsigned(s) == digits && (sign == "-" <==> s[0] == '-')
  {
    assert digits[0] != '-' && digits[0] != '+';
    if sign == "" {
      assert s == digits;
    } else {
      assert s[0] == sign[0] && s[1..] == digits;
    }
  }

  lemma DecimalOf(s: string) returns (sign: string)
    requires Digits(Unsigned(s))
    ensures Decimal(s, sign, Unsigned(s)) && (sign == "-" <==> s[0] == '-')
  {
    sign := if Unsigned(s) == s then "" else [s[0]];
    if Unsigned(s) == s {
      assert s[0] != '-';
    }
  }

  // A number is read exactly from a sign, or none, and digits, if the value fits 64 bits.
  lemma ParseInt64Says(s: string, v: int)
    ensures ParseInt64(s) == Some(v) <==>
      FitsInt64(v) && exists sign, digits :: Decimal(s, sign, digits) && v == Signed(sign, ValueOf(digits))
  {
    ParseNatSays(Unsigned(s));
    hide ParseNat, ValueOf, Digits, FitsInt64;
    if ParseInt64(s) == Some(v) {
      var sign := DecimalOf(s);
      assert v == Signed(sign, ValueOf(Unsigned(s)));
    }
    if sign, digits :| FitsInt64(v) && Decimal(s, sign, digits) && v == Signed(sign, ValueOf(digits)) {
      DecimalIs(s, sign, digits);
    }
  }

  lemma {:induction false} ParsePrintNat(n: nat)
    ensures ParseNat(PrintNat(n)) == Some(n)
  {
    if n >= 10 {
      ParsePrintNat(n / 10);
      var s := PrintNat(n);
      assert s[..|s| - 1] == PrintNat(n / 10);
    }
  }

  // Parsing a printed number gives it back when it fits in 64 bits, and nothing otherwise.
  lemma ParsePrintInt(n: int)
    ensures ParseInt64(PrintInt(n)) == if FitsInt64(n) then Some(n) else None
  {
    if n < 0 {
      ParsePrintNat(-n);
      assert PrintInt(n)[1..] == PrintNat(-n);
    } else {
      ParsePrintNat(n);
      assert IsDigit(PrintNat(n)[0]);
    }
  }

  lemma PrintNatInjective(a: nat, b: nat)
    requires PrintNat(a) == PrintNat(b)
    ensures a == b
  {
    ParsePrintNat(a);
    ParsePrintNat(b);
  }

  // Without leading zeros.
  lemma {:induction false} LeadingDigit(n: nat)
    ensures |PrintNat(n)| > 1 ==> PrintNat(n)[0] != '0'
    ensures n > 0 ==> PrintNat(n)[0] != '0'
  {
    if n >= 10 {
      LeadingDigit(n / 10);
    }
  }

  lemma PrintIntSign(n: int)
    ensures PrintInt(n) != "" && (PrintInt(n)[0] == '-' <==> n < 0)
    ensures n < 0 ==> PrintInt(n)[1..] == PrintNat(-n)
  {
    if n >= 0 {
      assert PrintNat(n)[0] in PrintNat(n);
    }
  }

  lemma PrintIntInjective(a: int, b: int)
    requires PrintInt(a) == PrintInt(b)
    ensures a == b
  {
    PrintIntSign(a);
    PrintIntSign(b);
    if a < 0 {
      PrintNatInjective(-a, -b);
    } else {
      PrintNatInjective(a, b);
    }
  }

  // A printed number is digits after an optional minus sign.
  lemma PrintIntChars(n: int, c: char)
    requires c in PrintInt(n)
    ensures IsDigit(c) || c == '-'
  {
  }

  // --- sorted, without duplicates ---

  function Insert<T(==)>(less: (T, T) -> bool, x: T, s: seq<T>): seq<T> {
    if s == [] then [x]
    else if x == s[0] then s
    else if less(x, s[0]) then [x] + s
    else [s[0]] + Insert(less, x, s[1..])
  }

  function SortedSet<T(==)>(less: (T, T) -> bool, s: seq<T>): seq<T> {
    if s == [] then [] else Insert(less, s[0], SortedSet(less, s[1..]))
  }

  lemma {:induction false} InsertMembers<T>(less: (T, T) -> bool, x: T, s: seq<T>)
    ensures forall y :: y in Insert(less, x, s) <==> y == x || y in s
  {
    if s != [] && x != s[0] && !less(x, s[0]) {
      InsertMembers(less, x, s[1..]);
      forall y
        ensures y in Insert(less, x, s) <==> y == x || y in s
      {
        assert y in s <==> y == s[0] || y in s[1..];
      }
    }
  }

  lemma {:induction false} SortedSetMembers<T>(less: (T, T) -> bool, s: seq<T>)
    ensures forall y :: y in SortedSet(less, s) <==> y in s
  {
    if s != [] {
      SortedSetMembers(less, s[1..]);
      InsertMembers(less, s[0], SortedSet(less, s[1..]));
      forall y
        ensures y in SortedSet(less, s) <==> y in s
      {
        assert y in s <==> y == s[0] || y in s[1..];
      }
    }
  }

  function IntLess(a: int, b: int): bool { a < b }

  // Strictly ascending.
  predicate Ascending<T(!new)>(less: (T, T) -> bool, s: seq<T>) {
    forall i, j :: 0 <= i < j < |s| ==> less(s[i], s[j])
  }

  // A strict total order.
  ghost predicate Orders<T(!new)>(less: (T, T) -> bool) {
    && (forall a, b, c :: less(a, b) && less(b, c) ==> less(a, c))
    && (forall a, b :: less(a, b) || a == b || less(b, a))
    && (forall a, b :: less(a, b) ==> a != b && !less(b, a))
  }

  // Code-point order of strings.
  function StringLess(a: string, b: string): bool {
    if b == "" then false
    else if a == "" then true
    else if a[0] != b[0] then a[0] < b[0]
    else StringLess(a[1..], b[1..])
  }

  lemma {:induction false} InsertAscends<T(!new)>(less: (T, T) -> bool, x: T, s: seq<T>)
    requires Orders(less) && Ascending(less, s)
    ensures Ascending(less, Insert(less, x, s))
  {
    if s != [] && x != s[0] && !less(x, s[0]) {
      var rest := Insert(less, x, s[1..]);
      InsertAscends(less, x, s[1..]);
      InsertMembers(less, x, s[1..]);
      forall y | y in rest
        ensures less(s[0], y)
      {
        assert y == x || y in s[1..];
      }
    } else if s != [] && x != s[0] {
      forall j | 0 <= j < |s|
        ensures less(x, s[j])
      {
        assert j > 0 ==> less(s[0], s[j]);
      }
    }
  }

  lemma {:induction false} SortedSetAscends<T(!new)>(less: (T, T) -> bool, s: seq<T>)
    requires Orders(less)
    ensures Ascending(less, SortedSet(less, s))
  {
    if s != [] {
      SortedSetAscends(less, s[1..]);
      InsertAscends(less, s[0], SortedSet(less, s[1..]));
    }
  }

  lemma IntsAreOrdered()
    ensures Orders(IntLess)
  {
  }

  lemma {:induction false} LessTransitive(a: string, b: string, c: string)
    requires StringLess(a, b) && StringLess(b, c)
    ensures StringLess(a, c)
  {
    if a != "" && a[0] == b[0] && b[0] == c[0] {
      LessTransitive(a[1..], b[1..], c[1..]);
    }
  }

  lemma {:induction false} LessTotal(a: string, b: string)
    ensures StringLess(a, b) || a == b || StringLess(b, a)
    ensures StringLess(a, b) ==> a != b && !StringLess(b, a)
  {
    if a != "" && b != "" && a[0] == b[0] {
      LessTotal(a[1..], b[1..]);
      if a[1..] == b[1..] {
        assert a == [a[0]] + a[1..] && b == [b[0]] + b[1..];
      }
    }
  }

  lemma StringsAreOrdered()
    ensures Orders(StringLess)
  {
    forall a, b, c | StringLess(a, b) && StringLess(b, c)
      ensures StringLess(a, c)
    {
      LessTransitive(a, b, c);
    }
    forall a, b
      ensures StringLess(a, b) || a == b || StringLess(b, a)
      ensures StringLess(a, b) ==> a != b && !StringLess(b, a)
    {
      LessTotal(a, b);
    }
  }
}
