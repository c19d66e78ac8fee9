/**
 The panel's patterns for names, as regular expressions with their usual meaning, and the tests
 by which the model decides them; and what a slug is made of.
 */
module Patterns {

  import opened Text
  import opened Panel
  import Config

  datatype Regex =
    | Range(lo: char, hi: char)
    | Then(first: Regex, second: Regex)
    | Either(one: Regex, other: Regex)
    | Maybe(opt: Regex)
    | Many(body: Regex)

  // The whole text matches.
  ghost predicate Matches(r: Regex, s: string)
    decreases r, |s|
  {
    match r
    case Range(lo, hi) => |s| == 1 && lo <= s[0] <= hi
    case Then(a, b) => exists i :: 0 <= i <= |s| && Matches(a, s[..i]) && Matches(b, s[i..])
    case Either(a, b) => Matches(a, s) || Matches(b, s)
    case Maybe(a) => s == "" || Matches(a, s)
    case Many(a) => s == "" || exists i :: 0 < i <= |s| && Matches(a, s[..i]) && Matches(r, s[i..])
  }

  const LETTER := Range('a', 'z')
  const HYPHEN := Range('-', '-')
  const DOT := Range('.', '.')
  const ALNUM := Either(LETTER, Range('0', '9'))
  const INNER := Either(ALNUM, HYPHEN)

  // [a-z0-9]([a-z0-9-]*[a-z0-9])?
  const LABEL := Then(ALNUM, Maybe(Then(Many(INNER), ALNUM)))

  // xn--[a-z0-9-]{2,}
  const PUNYCODE :=
    Then(Range('x', 'x'), Then(Range('n', 'n'), Then(HYPHEN, Then(HYPHEN, Then(INNER, Then(INNER, Many(INNER)))))))

  // [a-z]{2,}
  const LETTERS := Then(LETTER, Then(LETTER, Many(LETTER)))

  // ([a-z0-9]([a-z0-9-]*[a-z0-9])?\\.)+(xn--[a-z0-9-]{2,}|[a-z]{2,})
  const GROUP := Then(LABEL, DOT)
  const TOP := Either(PUNYCODE, LETTERS)
  const FQDN := Then(GROUP, Then(Many(GROUP), TOP))

  // One character of a class.
  predicate OneOf(r: Regex) {
    r == LETTER || r == INNER || r == ALNUM
  }

  predicate InClass(r: Regex, c: char) {
    if r == LETTER then 'a' <= c <= 'z' else if r == ALNUM then IsAlnum(c) else IsLabelChar(c)
  }

  lemma ClassIs(r: Regex, s: string)
    requires OneOf(r)
    ensures Matches(r, s) <==> |s| == 1 && InClass(r, s[0])
  {
  }

  lemma {:induction false} ManyIs(r: Regex, s: string)
    requires OneOf(r)
    ensures Matches(Many(r), s) <==> forall c :: c in s ==> InClass(r, c)
    decreases |s|
  {
    hide InClass;
    if s != "" {
      forall i | 0 < i <= |s|
        ensures Matches(r, s[..i]) <==> i == 1 && InClass(r, s[0])
      {
        ClassIs(r, s[..i]);
      }
      assert s == [s[0]] + s[1..];
      assert forall c :: c in s <==> c == s[0] || c in s[1..];
      ManyIs(r, s[1..]);
      hide Matches;
      ManyStep(r, s);
    }
  }

  lemma ManyStep(r: Regex, s: string)
    requires s != ""
    ensures Matches(Many(r), s) <==> exists i :: 0 < i <= |s| && Matches(r, s[..i]) && Matches(Many(r), s[i..])
  {
  }

  lemma ThenIs(a: Regex, b: Regex, s: string)
    ensures Matches(Then(a, b), s) <==> exists i :: 0 <= i <= |s| && Matches(a, s[..i]) && Matches(b, s[i..])
  {
  }

  // A class and then something.
  lemma FirstIs(r: Regex, b: Regex, s: string)
    requires OneOf(r)
    ensures Matches(Then(r, b), s) <==> s != "" && InClass(r, s[0]) && Matches(b, s[1..])
  {
    ThenIs(r, b, s);
    forall i | 0 <= i <= |s|
      ensures Matches(r, s[..i]) <==> i == 1 && InClass(r, s[0])
    {
      ClassIs(r, s[..i]);
    }
    hide Matches, InClass;
  }

  lemma LastIs(a: Regex, r: Regex, s: string)
    requires OneOf(r)
    ensures Matches(Then(a, r), s) <==> s != "" && InClass(r, s[|s| - 1]) && Matches(a, s[..|s| - 1])
  {
    ThenIs(a, r, s);
    forall i | 0 <= i <= |s|
      ensures Matches(r, s[i..]) <==> i == |s| - 1 && InClass(r, s[|s| - 1])
    {
      ClassIs(r, s[i..]);
    }
    hide Matches, InClass;
  }

  lemma LabelPattern(s: string)
    ensures Matches(LABEL, s) <==> IsLabel(s)
  {
    FirstIs(ALNUM, LABEL.second, s);
    if s != "" {
      var t := s[1..];
      MaybeIs(LABEL.second.opt, t);
      LastIs(Many(INNER), ALNUM, t);
      if t != "" {
        ManyIs(INNER, t[..|t| - 1]);
        LabelChars(s);
      }
    }
    hide Matches;
  }

  lemma MaybeIs(a: Regex, s: string)
    ensures Matches(Maybe(a), s) <==> s == "" || Matches(a, s)
  {
  }

  lemma LabelChars(s: string)
    requires |s| > 1
    ensures IsLabel(s) <==>
      IsAlnum(s[0]) && IsAlnum(s[|s| - 1]) && forall c :: c in s[1..][..|s| - 2] ==> IsLabelChar(c)
  {
    var mid := s[1..][..|s| - 2];
    assert forall i :: 1 <= i < |s| - 1 ==> s[i] == mid[i - 1] && s[i] in mid;
    if IsAlnum(s[0]) && IsAlnum(s[|s| - 1]) && forall c :: c in mid ==> IsLabelChar(c) {
      forall i | 0 <= i < |s|
        ensures IsLabelChar(s[i])
      {
        assert i == 0 || i == |s| - 1 || s[i] in mid;
      }
    }
    if IsLabel(s) {
      forall c | c in mid
        ensures IsLabelChar(c)
      {
        var i :| 0 <= i < |mid| && mid[i] == c;
        assert s[i + 1] == c;
      }
    }
  }

  // As the panel's language anchors it, a pattern also matches before a final line feed.
  lemma LabelMatchSays(s: string)
    ensures MatchesLabel(s) <==> exists t: string :: (s == t || s == t + "\n") && Matches(LABEL, t)
  {
    hide IsLabel;
    LabelPattern(s);
    if s != "" {
      LabelPattern(s[..|s| - 1]);
    }
    hide Matches;
    if MatchesLabel(s) {
      var t := if Matches(LABEL, s) then s else s[..|s| - 1];
      assert s == t || s == t + "\n";
    }
    if t: string :| (s == t || s == t + "\n") && Matches(LABEL, t) {
      LabelPattern(t);
      assert s != t ==> s[..|s| - 1] == t;
    }
  }

  // --- subdomains ---

  lemma {:induction false} NonEmptySays(parts: seq<string>)
    ensures multiset(NonEmpty(parts)) == multiset(parts)["" := 0]
    ensures NonEmpty(parts) != [] ==>
      exists i :: 0 <= i < |parts| && parts[i] == NonEmpty(parts)[0] && forall j :: 0 <= j < i ==> parts[j] == ""
  {
    if parts != [] {
      NonEmptySays(parts[1..]);
      assert parts == [parts[0]] + parts[1..];
      if parts[0] != "" {
        assert NonEmpty(parts) == [parts[0]] + NonEmpty(parts[1..]);
      } else {
        assert NonEmpty(parts) == NonEmpty(parts[1..]);
        FirstFilled(parts, NonEmpty(parts));
      }
    }
  }

  lemma FirstFilled(parts: seq<string>, filled: seq<string>)
    requires parts != [] && parts[0] == ""
    requires var rest := parts[1..];
      filled != [] ==> exists i :: 0 <= i < |rest| && rest[i] == filled[0] && forall j :: 0 <= j < i ==> rest[j] == ""
    ensures filled != [] ==>
      exists i :: 0 <= i < |parts| && parts[i] == filled[0] && forall j :: 0 <= j < i ==> parts[j] == ""
  {
    if filled != [] {
      var rest := parts[1..];
      var i :| 0 <= i < |rest| && rest[i] == filled[0] && forall j :: 0 <= j < i ==> rest[j] == "";
      assert parts[i + 1] == filled[0];
      assert forall j :: 0 < j < i + 1 ==> parts[j] == rest[j - 1];
    }
  }

  // A special name, or one of the provider.
  predicate Kept(l: string) {
    exists r :: r in {
        "_dmarc", "_domainkey", "autodiscover", "autoconfig", "ns", "ns1", "ns2",
        "mx", "mx1", "mx2", "dkim", "www", "rctunnel", "rc-tunnel", "rc"} && SameButCase(l, r)
  }

  lemma ShortNamesAreLower(r: string)
    requires r == "ns" || r == "ns1" || r == "ns2" || r == "mx" || r == "mx1" || r == "mx2" || r == "rc" || r == "www"
    ensures NoUpper(r)
  {
  }

  lemma LongNamesAreLower(r: string)
    requires r == "_dmarc" || r == "_domainkey" || r == "autodiscover" || r == "autoconfig"
    ensures NoUpper(r)
  {
  }

  lemma OtherNamesAreLower(r: string)
    requires r == "dkim" || r == "rctunnel" || r == "rc-tunnel"
    ensures NoUpper(r)
  {
  }

  lemma ReservedIsLower(r: string)
    requires r in RESERVED
    ensures NoUpper(r)
  {
    hide NoUpper;
    if r == "ns" || r == "ns1" || r == "ns2" || r == "mx" || r == "mx1" || r == "mx2" || r == "rc" || r == "www" {
      ShortNamesAreLower(r);
    } else if r == "_dmarc" || r == "_domainkey" || r == "autodiscover" || r == "autoconfig" {
      LongNamesAreLower(r);
    } else {
      OtherNamesAreLower(r);
    }
  }

  lemma KeptIff(l: string)
    ensures Lower(l) in RESERVED <==> Kept(l)
  {
    hide NoUpper, Lower, SameButCase;
    forall r | r in RESERVED
      ensures Lower(l) == r <==> SameButCase(l, r)
    {
      ReservedIsLower(r);
      LowerMeans(l, r);
    }
  }

  lemma LabelMembers(x: string, l: string)
    ensures l in Labels(x) <==> l in Split(x, '.') && l != ""
  {
    NonEmptySays(Split(x, '.'));
    hide NonEmpty, Split;
    var (labels, parts) := (Labels(x), Split(x, '.'));
    assert l in labels <==> multiset(labels)[l] > 0;
    assert l in parts <==> multiset(parts)[l] > 0;
  }

  lemma AllLabelsMatch(x: string)
    ensures (forall i :: 0 <= i < |Labels(x)| ==> MatchesLabel(Lower(Labels(x)[i]))) <==>
      forall p :: p in Split(x, '.') && p != "" ==> MatchesLabel(Lower(p))
  {
    hide MatchesLabel, Lower, Split, Labels;
    forall p
      ensures p in Labels(x) <==> p in Split(x, '.') && p != ""
    {
      LabelMembers(x, p);
    }
    if forall i :: 0 <= i < |Labels(x)| ==> MatchesLabel(Lower(Labels(x)[i])) {
      forall p | p in Labels(x)
        ensures MatchesLabel(Lower(p))
      {
        var i :| 0 <= i < |Labels(x)| && Labels(x)[i] == p;
      }
    }
  }

  // The first part that is not empty.
  predicate Leads(parts: seq<string>, l: string) {
    l != "" && exists i :: 0 <= i < |parts| && parts[i] == l && forall j :: 0 <= j < i ==> parts[j] == ""
  }

  lemma FirstLabelLeads(x: string)
    ensures forall l :: Leads(Split(x, '.'), l) <==> Labels(x) != [] && l == Labels(x)[0]
  {
    var parts := Split(x, '.');
    NonEmptySays(parts);
    if Labels(x) != [] {
      LabelMembers(x, Labels(x)[0]);
    }
    forall l | Leads(parts, l)
      ensures Labels(x) != [] && l == Labels(x)[0]
    {
      LabelMembers(x, l);
    }
  }

  // A subdomain passes exactly if each of its parts between the dots, unless it is empty, matches
  // the pattern in lower case, and the first of them is none of the names that are kept back.
  lemma LabelsOkSays(x: string)
    ensures var parts := Split(x, '.');
      LabelsOk(x) <==>
        && (forall p :: p in parts && p != "" ==> MatchesLabel(Lower(p)))
        && (forall l :: Leads(parts, l) ==> !Kept(l))
  {
    AllLabelsMatch(x);
    FirstLabelLeads(x);
    if Labels(x) != [] {
      KeptIff(Labels(x)[0]);
    }
    hide Lower, MatchesLabel, Kept, Split, Labels, Leads;
  }

  // --- domains ---

  lemma OneCharIs(c: char, b: Regex, s: string)
    ensures Matches(Then(Range(c, c), b), s) <==> s != "" && s[0] == c && Matches(b, s[1..])
  {
    ThenIs(Range(c, c), b, s);
    forall i | 0 <= i <= |s|
      ensures Matches(Range(c, c), s[..i]) <==> i == 1 && s[0] == c
    {
    }
    hide Matches;
  }

  lemma LettersPattern(s: string)
    ensures Matches(LETTERS, s) <==> |s| >= 2 && forall i :: 0 <= i < |s| ==> 'a' <= s[i] <= 'z'
  {
    FirstIs(LETTER, LETTERS.second, s);
    if s != "" {
      FirstIs(LETTER, Many(LETTER), s[1..]);
      if |s| > 1 {
        var u := s[2..];
        assert s[1..][1..] == u;
        ManyIs(LETTER, u);
        assert forall i :: 2 <= i < |s| ==> s[i] == u[i - 2] && u[i - 2] in u;
        hide Matches;
        forall c | c in u && (forall i :: 0 <= i < |s| ==> 'a' <= s[i] <= 'z')
          ensures 'a' <= c <= 'z'
        {
          var i :| 0 <= i < |u| && u[i] == c;
          assert s[i + 2] == c;
        }
      }
    }
    hide Matches;
  }

  lemma PunycodePattern(s: string)
    ensures Matches(PUNYCODE, s) <==>
      |s| >= 6 && s[..4] == "xn--" && forall i :: 4 <= i < |s| ==> IsLabelChar(s[i])
  {
    var tail := Then(INNER, Then(INNER, Many(INNER)));
    OneCharIs('x', PUNYCODE.second, s);
    if |s| >= 1 {
      OneCharIs('n', PUNYCODE.second.second, s[1..]);
    }
    if |s| >= 2 {
      OneCharIs('-', Then(HYPHEN, tail), s[1..][1..]);
      assert s[1..][1..] == s[2..];
    }
    if |s| >= 3 {
      OneCharIs('-', tail, s[2..][1..]);
      assert s[2..][1..] == s[3..];
    }
    if |s| >= 4 {
      assert s[3..][1..] == s[4..];
      assert s[..4] == [s[0], s[1], s[2], s[3]];
      TailPattern(s[4..]);
      assert forall i :: 4 <= i < |s| ==> s[i] == s[4..][i - 4];
    }
    hide Matches;
    assert Matches(PUNYCODE, s) <==> |s| >= 4 && s[..4] == "xn--" && Matches(tail, s[4..]);
  }

  lemma TailPattern(u: string)
    ensures Matches(Then(INNER, Then(INNER, Many(INNER))), u) <==>
      |u| >= 2 && forall i :: 0 <= i < |u| ==> IsLabelChar(u[i])
  {
    FirstIs(INNER, Then(INNER, Many(INNER)), u);
    if u != "" {
      FirstIs(INNER, Many(INNER), u[1..]);
      if |u| > 1 {
        ManyIs(INNER, u[1..][1..]);
        assert u[1..][1..] == u[2..];
        assert forall i :: 2 <= i < |u| ==> u[i] == u[2..][i - 2] && u[i] in u[2..];
      }
    }
    hide Matches;
  }

  lemma TopPattern(s: string)
    ensures Matches(TOP, s) <==> IsTopLevel(s)
  {
    LettersPattern(s);
    PunycodePattern(s);
    assert Matches(TOP, s) <==> Matches(PUNYCODE, s) || Matches(LETTERS, s);
    hide Matches;
  }

  // A label and its dot.
  lemma GroupPattern(s: string)
    ensures Matches(GROUP, s) <==> s != "" && s[|s| - 1] == '.' && IsLabel(s[..|s| - 1])
  {
    ThenIs(LABEL, DOT, s);
    forall i | 0 <= i <= |s|
      ensures Matches(DOT, s[i..]) <==> i == |s| - 1 && s[i] == '.'
      ensures Matches(LABEL, s[..i]) <==> IsLabel(s[..i])
    {
      LabelPattern(s[..i]);
    }
    hide Matches, IsLabel;
  }

  // All parts but the last are labels, and the last is a top-level name.
  predicate Parts(parts: seq<string>) {
    parts != [] && (forall i :: 0 <= i < |parts| - 1 ==> IsLabel(parts[i])) && IsTopLevel(parts[|parts| - 1])
  }

  lemma NoDots(s: string)
    requires IsLabel(s) || IsTopLevel(s)
    ensures '.' !in s
  {
    forall i | 0 <= i < |s|
      ensures s[i] != '.'
    {
      assert i < 4 && |s| >= 6 ==> s[i] == s[..4][i];
    }
  }

  lemma PartsOneMore(l: string, some: seq<string>)
    requires IsLabel(l) && some != []
    ensures Parts([l] + some) <==> Parts(some)
  {
    hide IsLabel, IsTopLevel;
    var all := [l] + some;
    assert forall i :: 0 <= i < |some| ==> some[i] == all[i + 1];
    assert all[0] == l && all[|all| - 1] == some[|some| - 1];
    if Parts(some) {
      forall i | 0 <= i < |all| - 1
        ensures IsLabel(all[i])
      {
        assert i > 0 ==> all[i] == some[i - 1];
      }
    }
  }

  lemma PartsCons(l: string, rest: string)
    requires IsLabel(l)
    ensures Split(l + "." + rest, '.') == [l] + Split(rest, '.')
    ensures Parts(Split(l + "." + rest, '.')) <==> Parts(Split(rest, '.'))
  {
    NoDots(l);
    SplitSingle(l, '.');
    SplitConcat(l, '.', rest);
    hide IsLabel, Parts;
    assert Split(rest, '.') != [];
    PartsOneMore(l, Split(rest, '.'));
    assert l + "." + rest == l + ['.'] + rest;
  }

  lemma {:induction false} GroupsPattern(s: string)
    ensures Matches(Then(Many(GROUP), TOP), s) <==> Parts(Split(s, '.'))
    decreases |s|
  {
    hide Matches, IsTopLevel, IsLabel, Split, Parts;
    if Matches(Then(Many(GROUP), TOP), s) {
      GroupsToParts(s);
    }
    if Parts(Split(s, '.')) {
      PartsToGroups(s);
    }
  }

  lemma GroupsToParts(s: string)
    requires Matches(Then(Many(GROUP), TOP), s)
    ensures Parts(Split(s, '.'))
    decreases |s|, 0
  {
    hide Matches, IsTopLevel, IsLabel, Parts;
    ThenIs(Many(GROUP), TOP, s);
    var i :| 0 <= i <= |s| && Matches(Many(GROUP), s[..i]) && Matches(TOP, s[i..]);
    TopPattern(s[i..]);
    if i == 0 {
      assert s[0..] == s;
      NoDots(s);
      SplitSingle(s, '.');
      OnePart(s);
    } else {
      ManyStep(GROUP, s[..i]);
      var j :| 0 < j <= |s[..i]| && Matches(GROUP, s[..i][..j]) && Matches(Many(GROUP), s[..i][j..]);
      GroupPattern(s[..i][..j]);
      var (l, rest) := (s[..j - 1], s[j..]);
      assert s[..i][..j][..j - 1] == l && s[..i][..j][j - 1] == s[j - 1];
      assert rest[..i - j] == s[..i][j..] && rest[i - j..] == s[i..];
      ThenIs(Many(GROUP), TOP, rest);
      GroupsToParts(rest);
      assert s == l + "." + rest;
      PartsCons(l, rest);
    }
  }

  lemma OnePart(s: string)
    requires IsTopLevel(s)
    ensures Parts([s])
  {
  }

  lemma FirstPart(s: string)
    requires Parts(Split(s, '.')) && |Split(s, '.')| > 1
    ensures var l := Split(s, '.')[0];
      |l| < |s| && s[|l|] == '.' && s == l + "." + s[|l| + 1..] && IsLabel(l)
  {
    var parts := Split(s, '.');
    JoinSplit(s, '.');
    assert IsLabel(parts[0]);
    assert Join(parts, '.') == parts[0] + "." + Join(parts[1..], '.');
  }

  lemma PartsToGroups(s: string)
    requires Parts(Split(s, '.'))
    ensures Matches(Then(Many(GROUP), TOP), s)
    decreases |s|
  {
    hide Matches, IsTopLevel, IsLabel, Parts;
    var parts := Split(s, '.');
    ThenIs(Many(GROUP), TOP, s);
    if |parts| == 1 {
      JoinSplit(s, '.');
      LastPart(parts);
      TopPattern(s);
      NoneMany(GROUP);
      assert s[..0] == "" && s[0..] == s;
    } else {
      FirstPart(s);
      var l := parts[0];
      var rest := s[|l| + 1..];
      PartsCons(l, rest);
      PartsToGroups(rest);
      ThenIs(Many(GROUP), TOP, rest);
      var i :| 0 <= i <= |rest| && Matches(Many(GROUP), rest[..i]) && Matches(TOP, rest[i..]);
      var (j, k) := (|l| + 1, |l| + 1 + i);
      assert s[..k] == (l + ".") + rest[..i];
      assert s[..k][..j] == l + "." && s[..k][j..] == rest[..i];
      assert s[k..] == rest[i..];
      assert (l + ".")[..|l|] == l;
      GroupPattern(l + ".");
      ManyStep(GROUP, s[..k]);
    }
  }

  lemma LastPart(parts: seq<string>)
    requires Parts(parts) && |parts| == 1
    ensures IsTopLevel(parts[0])
  {
  }

  lemma NoneMany(r: Regex)
    ensures Matches(Many(r), "")
  {
  }

  lemma PartsOf(d: string)
    ensures IsFqdn(d) <==> 1 <= |d| <= 253 && |Split(d, '.')| >= 2 && Parts(Split(d, '.'))
  {
    hide IsLabel, IsTopLevel;
  }

  lemma PartsMatch(d: string)
    requires |Split(d, '.')| >= 2 && Parts(Split(d, '.'))
    ensures Matches(FQDN, d)
  {
    hide Matches, Parts, IsLabel;
    FirstPart(d);
    var l := Split(d, '.')[0];
    var rest := d[|l| + 1..];
    hide Split;
    PartsCons(l, rest);
    GroupsPattern(rest);
    assert d[..|l| + 1] == l + "." && (l + ".")[..|l|] == l;
    GroupPattern(l + ".");
    ThenIs(GROUP, Then(Many(GROUP), TOP), d);
  }

  lemma MatchHasParts(d: string)
    requires Matches(FQDN, d)
    ensures |Split(d, '.')| >= 2 && Parts(Split(d, '.'))
  {
    ThenIs(GROUP, Then(Many(GROUP), TOP), d);
    hide Matches, Parts, IsLabel;
    var i :| 0 <= i <= |d| && Matches(GROUP, d[..i]) && Matches(Then(Many(GROUP), TOP), d[i..]);
    GroupPattern(d[..i]);
    var l := d[..i][..i - 1];
    GroupsPattern(d[i..]);
    assert d == l + "." + d[i..];
    PartsCons(l, d[i..]);
    assert Split(d[i..], '.') != [];
  }

  // The test for a domain decides the pattern and the length.
  lemma FqdnPattern(d: string)
    ensures IsFqdn(d) <==> 1 <= |d| <= 253 && Matches(FQDN, d)
  {
    PartsOf(d);
    hide Matches, Parts, IsFqdn, Split;
    if |Split(d, '.')| >= 2 && Parts(Split(d, '.')) {
      PartsMatch(d);
    }
    if Matches(FQDN, d) {
      MatchHasParts(d);
    }
  }

  // --- slugs ---

  // The runs of letters and digits.
  function Words(s: string): seq<string> {
    if s == "" then []
    else
      var rest := Words(s[1..]);
      if !IsAlnum(s[0]) then rest
      else if |s| > 1 && IsAlnum(s[1]) && rest != [] then [[s[0]] + rest[0]] + rest[1..]
      else [[s[0]]] + rest
  }

  // A hyphen wherever the text starts, or ends, with something else.
  function Lead(s: string): string { if s != "" && !IsAlnum(s[0]) then "-" else "" }

  function Trail(s: string): string {
    if s != "" && !IsAlnum(s[|s| - 1]) && Words(s) != [] then "-" else ""
  }

  predicate Runs(ws: seq<string>) {
    forall i :: 0 <= i < |ws| ==> ws[i] != "" && forall c :: c in ws[i] ==> IsAlnum(c)
  }

  lemma {:induction false} WordsAreRuns(s: string)
    ensures Runs(Words(s))
    ensures s != "" && IsAlnum(s[0]) ==> Words(s) != [] && Words(s)[0] != "" && Words(s)[0][0] == s[0]
  {
    if s != "" {
      WordsAreRuns(s[1..]);
    }
  }

  lemma {:induction false} NoWords(s: string)
    requires Words(s) == []
    ensures forall c :: c in s ==> !IsAlnum(c)
  {
    if s != "" {
      assert s == [s[0]] + s[1..];
      NoWords(s[1..]);
    }
  }

  lemma {:induction false} JoinEnds(ws: seq<string>)
    requires ws != [] && Runs(ws)
    ensures var j := Join(ws, '-');
      j != "" && j[0] == ws[0][0] && IsAlnum(j[0]) && IsAlnum(j[|j| - 1])
  {
    assert ws[0][0] in ws[0];
    if |ws| == 1 {
      assert ws[0][|ws[0]| - 1] in ws[0];
    } else {
      JoinEnds(ws[1..]);
    }
  }

  lemma JoinGlued(c: char, ws: seq<string>)
    requires ws != []
    ensures Join([[c] + ws[0]] + ws[1..], '-') == [c] + Join(ws, '-')
  {
    var glued := [[c] + ws[0]] + ws[1..];
    assert glued[1..] == ws[1..];
    if |ws| > 1 {
      assert ([c] + ws[0]) + "-" + Join(ws[1..], '-') == [c] + (ws[0] + "-" + Join(ws[1..], '-'));
    }
  }

  predicate Hyphenated(s: string) {
    Hyphenate(s) == Lead(s) + (Join(Words(s), '-') + Trail(s))
  }

  lemma OneCharHyphenated(s: string)
    requires |s| == 1
    ensures Hyphenated(s)
  {
    assert s[1..] == "" && Words(s[1..]) == [] && Hyphenate(s[1..]) == "";
    assert s == [s[0]];
    if IsAlnum(s[0]) {
      assert Words(s) == [s];
    }
  }

  // One character more in front.
  lemma Unfold(s: string)
    requires |s| > 1
    ensures var (r, ws) := (s[1..], Words(s[1..]));
      && s[|s| - 1] == r[|r| - 1] && r[0] == s[1]
      && Words(s) == (if !IsAlnum(s[0]) then ws
                      else if IsAlnum(r[0]) && ws != [] then [[s[0]] + ws[0]] + ws[1..]
                      else [[s[0]]] + ws)
      && Hyphenate(s) == (if IsAlnum(s[0]) then [s[0]] + Hyphenate(r)
                          else if Hyphenate(r) != "" && Hyphenate(r)[0] == '-' then Hyphenate(r)
                          else "-" + Hyphenate(r))
  {
  }

  lemma MarkFirst(s: string)
    requires |s| > 1 && Hyphenated(s[1..]) && !IsAlnum(s[0])
    ensures Hyphenated(s)
  {
    hide Words, Join, Hyphenate;
    var r := s[1..];
    Unfold(s);
    WordsAreRuns(r);
    var (j, h) := (Join(Words(r), '-'), Hyphenate(r));
    assert Trail(s) == Trail(r);
    if IsAlnum(r[0]) {
      JoinEnds(Words(r));
      assert h == j + Trail(r) && h[0] == j[0];
    } else {
      assert h == "-" + (j + Trail(r));
    }
  }

  lemma GluedFirst(s: string)
    requires |s| > 1 && Hyphenated(s[1..]) && IsAlnum(s[0]) && IsAlnum(s[1])
    ensures Hyphenated(s)
  {
    hide Words, Join, Hyphenate;
    var r := s[1..];
    Unfold(s);
    WordsAreRuns(r);
    JoinGlued(s[0], Words(r));
    assert Trail(s) == Trail(r) && Lead(r) == "" && Lead(s) == "";
    var j := Join(Words(r), '-');
    assert Hyphenate(r) == j + Trail(r);
    assert [s[0]] + (j + Trail(r)) == ([s[0]] + j) + Trail(s);
  }

  lemma LoneFirst(s: string)
    requires |s| > 1 && Hyphenated(s[1..]) && IsAlnum(s[0]) && !IsAlnum(s[1])
    ensures Hyphenated(s)
  {
    hide Words, Join, Hyphenate;
    var r := s[1..];
    Unfold(s);
    JoinLone([s[0]], Words(r));
    LoneTrail(s);
    var (j, tail) := (Join(Words(r), '-'), Trail(r));
    assert Hyphenate(s) == [s[0]] + ("-" + (j + tail)) && Words(s) == [[s[0]]] + Words(r);
    hide Trail, Lead, IsAlnum;
    if Words(r) == [] {
      assert Hyphenate(s) == [s[0]] + "-";
    } else {
      assert Hyphenate(s) == ([s[0]] + "-" + j) + tail;
    }
    LeadOf(s);
  }

  lemma LeadOf(s: string)
    requires s != "" && IsAlnum(s[0])
    ensures forall x: string :: Lead(s) + x == x
  {
  }

  lemma LoneTrail(s: string)
    requires |s| > 1 && IsAlnum(s[0]) && !IsAlnum(s[1])
    ensures Lead(s[1..]) == "-"
    ensures Words(s[1..]) == [] ==> Trail(s) == "-" && Trail(s[1..]) == ""
    ensures Words(s[1..]) != [] ==> Trail(s) == Trail(s[1..])
  {
    hide Words;
    var r := s[1..];
    Unfold(s);
    if Words(r) == [] {
      NoWords(r);
      assert r[|r| - 1] in r;
    }
  }

  lemma JoinLone(w: string, ws: seq<string>)
    ensures Join([w] + ws, '-') == if ws == [] then w else w + "-" + Join(ws, '-')
    ensures ws == [] ==> Join(ws, '-') == ""
  {
    assert ([w] + ws)[1..] == ws;
  }

  // The hyphenated text is the words with hyphens between them, and one wherever the text starts
  // or ends with something else.
  lemma {:induction false} HyphenateSays(s: string)
    ensures Hyphenated(s)
  {
    hide Hyphenated;
    if s == "" {
      NothingHyphenated();
    } else if |s| == 1 {
      OneCharHyphenated(s);
    } else {
      HyphenateSays(s[1..]);
      if !IsAlnum(s[0]) {
        MarkFirst(s);
      } else if IsAlnum(s[1]) {
        GluedFirst(s);
      } else {
        LoneFirst(s);
      }
    }
  }

  lemma NothingHyphenated()
    ensures Hyphenated("")
  {
  }

  lemma {:induction false} StripRightOf(x: string)
    requires x == "" || x[|x| - 1] != '-'
    ensures StripHyphensRight(x) == x && StripHyphensRight(x + "-") == x
  {
    assert (x + "-")[..|x|] == x;
  }

  lemma StripLeftOf(x: string)
    requires x == "" || x[0] != '-'
    ensures StripHyphensLeft(x) == x && StripHyphensLeft("-" + x) == x
  {
    assert ("-" + x)[1..] == x;
  }

  // A label is made of the words of the name, in lower case, with single hyphens between them, cut
  // after 63 characters; a name without a letter or digit gives none.
  lemma SlugSays(name: string)
    ensures var words := Join(Words(Lower(name)), '-');
      Slug(name) == if words == "" then None else Some(if |words| > 63 then words[..63] else words)
  {
    var s := Lower(name);
    var (ws, j) := (Words(s), Join(Words(s), '-'));
    HyphenateSays(s);
    WordsAreRuns(s);
    if ws == [] {
      assert j == "" && Trail(s) == "";
      StripLeftOf("");
      StripRightOf("");
      assert Lead(s) + ("" + "") == Lead(s);
      assert Lead(s) == "" || Lead(s) == "-" + "";
    } else {
      JoinEnds(ws);
      StripLeftOf(j + Trail(s));
      StripRightOf(j);
      assert Lead(s) == "-" || Lead(s) + (j + Trail(s)) == j + Trail(s);
      assert Trail(s) == "-" || j + Trail(s) == j;
    }
  }
}
