/** The release report: the latest eligible tag of an operator, and how it relates to the pinned version. */
module Releases {
  import opened Basics
  import opened SemVer

  datatype Operator = Operator(alpha: bool, prefix: string)
  datatype Options = Options(excludedTags: set<string>, includePrereleases: bool)
  datatype Status = CURRENT | NEW | AHEAD
  datatype Selection = Selection(latestTag: string, newer: nat, status: Status)

  /** The version of a tag the report considers, if it does. */
  function Eligible(op: Operator, opts: Options, tag: string): Option<Release> {
    if !StartsWith(tag, op.prefix) || tag in opts.excludedTags then None
    else
      var raw := tag[|op.prefix|..];
      var candidate := ParseRelease(raw, op.alpha);
      if candidate.Some? && candidate.value.prerelease != [] && !(op.alpha && AfterAlpha(raw) == Some("")) && !opts.includePrereleases
      then None else candidate
  }

  lemma EligibleIsVersion(op: Operator, opts: Options, tag: string)
    ensures Eligible(op, opts, tag).Some? ==> WellFormed(Eligible(op, opts, tag).value) && tag != ""
  {
    if Eligible(op, opts, tag).Some? {
      var raw := tag[|op.prefix|..];
      var text := DotCounter(if op.alpha then RewriteGrove(raw) else raw);
      var build := ParsesOnlyRendered(text);
      if raw == "" {
        EmptyIsNoVersion();
      }
      hide ParseSemver, WellFormed, RewriteGrove, DotCounter;
    }
  }

  lemma EmptyIsNoVersion()
    ensures RewriteGrove("") == "" && DotCounter("") == "" && ParseSemver("").None?
  {
    assert Split("") == [""];
  }

  /** Latest by version, then by tag text. */
  predicate Tops(v: Release, tag: string, w: Release, other: string)
    requires |v.core| == |w.core|
  {
    Compare(v, w) > 0 || (Compare(v, w) == 0 && CompareText(tag, other) >= 0)
  }

  ghost predicate Latest(op: Operator, opts: Options, tags: seq<string>, tag: string) {
    && tag in tags && Eligible(op, opts, tag).Some? && WellFormed(Eligible(op, opts, tag).value)
    && forall other :: other in tags && Eligible(op, opts, other).Some? ==>
         WellFormed(Eligible(op, opts, other).value) && Tops(Eligible(op, opts, tag).value, tag, Eligible(op, opts, other).value, other)
  }

  predicate Newer(op: Operator, opts: Options, current: Release, tag: string)
    requires WellFormed(current)
  {
    var v := Eligible(op, opts, tag);
    v.Some? && WellFormed(v.value) && Compare(v.value, current) > 0
  }

  function CountNewer(op: Operator, opts: Options, current: Release, tags: seq<string>): nat
    requires WellFormed(current)
  {
    if tags == [] then 0
    else CountNewer(op, opts, current, tags[..|tags| - 1]) + if Newer(op, opts, current, tags[|tags| - 1]) then 1 else 0
  }

  lemma TopsIsOrder(v: Release, tag: string, w: Release, other: string, x: Release, third: string)
    requires WellFormed(v) && WellFormed(w) && WellFormed(x)
    ensures Tops(v, tag, v, tag)
    ensures Tops(v, tag, w, other) || Tops(w, other, v, tag)
    ensures Tops(v, tag, w, other) && Tops(w, other, v, tag) ==> tag == other && v == w
    ensures Tops(v, tag, w, other) && Tops(w, other, x, third) ==> Tops(v, tag, x, third)
  {
    CompareIsTotalOrder(v, w, x);
    CompareIsTotalOrder(x, w, v);
    CompareIsTotalOrder(v, v, v);
    CompareIsTotalOrder(v, x, w);
    TextOrder(tag, other, third);
    TextOrder(third, other, tag);
    TextOrder(tag, third, other);
    TextOrder(tag, tag, tag);
    hide Compare, CompareText, WellFormed;
  }

  /** Whether the loop prefers a candidate to the latest so far. */
  predicate Beats(v: Release, tag: string, w: Release, other: string)
    requires |v.core| == |w.core|
  {
    Compare(v, w) > 0 || (Compare(v, w) == 0 && CompareText(tag, other) > 0)
  }

  lemma BeatsOrTops(v: Release, tag: string, w: Release, other: string)
    requires WellFormed(v) && WellFormed(w)
    ensures Beats(v, tag, w, other) ==> Tops(v, tag, w, other)
    ensures !Beats(v, tag, w, other) ==> Tops(w, other, v, tag)
  {
    CompareIsTotalOrder(v, w, w);
    TextOrder(tag, other, other);
    hide Compare, CompareText, WellFormed;
  }

  ghost predicate NoneEligible(op: Operator, opts: Options, tags: seq<string>) {
    forall tag :: tag in tags ==> Eligible(op, opts, tag).None?
  }

  lemma FirstEligible(op: Operator, opts: Options, tags: seq<string>, tag: string)
    requires NoneEligible(op, opts, tags) && Eligible(op, opts, tag).Some?
    ensures Latest(op, opts, tags + [tag], tag)
  {
    EligibleIsVersion(op, opts, tag);
    hide Eligible, WellFormed;
    var v := Eligible(op, opts, tag).value;
    assert |v.core| == 3 && Tops(v, tag, v, tag) by { WellFormedCore(v); TopsIsOrder(v, tag, v, tag, v, tag); }
    hide Tops;
    forall other | other in tags + [tag] && Eligible(op, opts, other).Some? ensures other == tag {
    }
  }

  lemma WellFormedCore(v: Release)
    ensures WellFormed(v) ==> |v.core| == 3
  {
  }

  lemma NextEligible(op: Operator, opts: Options, tags: seq<string>, latest: string, tag: string)
    requires Latest(op, opts, tags, latest) && Eligible(op, opts, tag).Some? && WellFormed(Eligible(op, opts, tag).value)
    ensures var v, w := Eligible(op, opts, tag).value, Eligible(op, opts, latest).value;
            Latest(op, opts, tags + [tag], if Beats(v, tag, w, latest) then tag else latest)
  {
    hide Eligible;
    var v, w := Eligible(op, opts, tag).value, Eligible(op, opts, latest).value;
    BeatsOrTops(v, tag, w, latest);
    TopsIsOrder(v, tag, v, tag, v, tag);
    hide Tops, Beats;
    forall other | other in tags + [tag] && Eligible(op, opts, other).Some?
      ensures WellFormed(Eligible(op, opts, other).value)
      ensures if Beats(v, tag, w, latest) then Tops(v, tag, Eligible(op, opts, other).value, other)
              else Tops(w, latest, Eligible(op, opts, other).value, other)
    {
      if other in tags {
        TopsIsOrder(v, tag, w, latest, Eligible(op, opts, other).value, other);
      }
    }
  }

  lemma LatestIsVersion(op: Operator, opts: Options, tags: seq<string>, latest: string)
    ensures Latest(op, opts, tags, latest) ==> Eligible(op, opts, latest).Some? && WellFormed(Eligible(op, opts, latest).value)
  {
  }

  lemma SkipIneligible(op: Operator, opts: Options, tags: seq<string>, latest: string, tag: string)
    requires Eligible(op, opts, tag).None?
    ensures Latest(op, opts, tags, latest) ==> Latest(op, opts, tags + [tag], latest)
    ensures NoneEligible(op, opts, tags) ==> NoneEligible(op, opts, tags + [tag])
  {
    hide Eligible, WellFormed, Tops;
  }

  lemma {:induction false} CountPositive(op: Operator, opts: Options, current: Release, tags: seq<string>)
    requires WellFormed(current)
    ensures CountNewer(op, opts, current, tags) > 0 <==> exists tag :: tag in tags && Newer(op, opts, current, tag)
    decreases |tags|
  {
    hide Newer;
    if tags != [] {
      var most := tags[..|tags| - 1];
      CountPositive(op, opts, current, most);
      assert tags == most + [tags[|tags| - 1]];
    }
  }

  /** Something is newer exactly when the latest is. */
  lemma NewerMeansLatest(op: Operator, opts: Options, current: Release, tags: seq<string>, latest: string)
    requires WellFormed(current) && Latest(op, opts, tags, latest)
    ensures CountNewer(op, opts, current, tags) > 0 <==> Compare(Eligible(op, opts, latest).value, current) > 0
    ensures Compare(current, Eligible(op, opts, latest).value) == -Compare(Eligible(op, opts, latest).value, current)
  {
    CountPositive(op, opts, current, tags);
    var w := Eligible(op, opts, latest).value;
    CompareIsTotalOrder(w, current, current);
    forall tag | tag in tags && Newer(op, opts, current, tag) ensures Compare(w, current) > 0 {
      var v := Eligible(op, opts, tag).value;
      CompareIsTotalOrder(w, v, current);
      CompareIsTotalOrder(v, w, current);
      CompareIsTotalOrder(v, current, w);
      CompareIsTotalOrder(current, v, w);
      hide Compare, CompareText, WellFormed, Eligible;
    }
    hide Compare, WellFormed, Eligible, CountNewer;
  }

  method SelectLatestRelease(op: Operator, current: Release, tags: seq<string>, opts: Options) returns (selected: Selection, found: bool)
    requires WellFormed(current)
    ensures found <==> exists tag :: tag in tags && Eligible(op, opts, tag).Some?
    ensures found ==> Latest(op, opts, tags, selected.latestTag)
    ensures selected.newer == CountNewer(op, opts, current, tags)
    ensures found ==> var latest := Eligible(op, opts, selected.latestTag).value;
                      && (selected.status == NEW <==> Compare(latest, current) > 0)
                      && (selected.status == AHEAD <==> Compare(latest, current) < 0)
                      && (selected.status == CURRENT <==> Compare(latest, current) == 0)
  {
    hide Eligible, Compare, Tops, Beats;
    var latest := current;
    var latestTag, newer := "", 0;
    for i := 0 to |tags|
      invariant newer == CountNewer(op, opts, current, tags[..i]) && |latest.core| == 3
      invariant latestTag == "" ==> NoneEligible(op, opts, tags[..i])
      invariant latestTag != "" ==> Latest(op, opts, tags[..i], latestTag) && Eligible(op, opts, latestTag) == Some(latest)
    {
      hide Latest, NoneEligible;
      assert tags[..i + 1] == tags[..i] + [tags[i]] && tags[..i + 1][..i] == tags[..i];
      var tag := tags[i];
      EligibleIsVersion(op, opts, tag);
      LatestIsVersion(op, opts, tags[..i], latestTag);
      var candidate := Eligible(op, opts, tag);
      if candidate.None? {
        SkipIneligible(op, opts, tags[..i], latestTag, tag);
      } else {
        if latestTag == "" {
          FirstEligible(op, opts, tags[..i], tag);
          latest, latestTag := candidate.value, tag;
        } else {
          NextEligible(op, opts, tags[..i], latestTag, tag);
          if Beats(candidate.value, tag, latest, latestTag) {
            latest, latestTag := candidate.value, tag;
          }
        }
        if Compare(candidate.value, current) > 0 {
          newer := newer + 1;
        }
      }
    }
    assert tags[..|tags|] == tags;
    found := latestTag != "";
    if !found {
      return Selection("", newer, CURRENT), false;
    }
    NewerMeansLatest(op, opts, current, tags, latestTag);
    selected := Selection(latestTag, newer, if newer > 0 then NEW else if Compare(current, latest) > 0 then AHEAD else CURRENT);
  }

  // ---------------------------------------------------------------- the order of the tag list

  lemma {:induction false} CountAppend(op: Operator, opts: Options, current: Release, a: seq<string>, b: seq<string>)
    requires WellFormed(current)
    ensures CountNewer(op, opts, current, a + b) == CountNewer(op, opts, current, a) + CountNewer(op, opts, current, b)
    decreases |b|
  {
    hide Newer, WellFormed;
    if b == [] {
      assert a + b == a;
    } else {
      var most := b[..|b| - 1];
      CountAppend(op, opts, current, a, most);
      assert (a + b)[..|a + b| - 1] == a + most;
    }
  }

  lemma SameRest(x: string, rest: seq<string>, before: seq<string>, after: seq<string>)
    requires multiset([x] + rest) == multiset(before + ([x] + after))
    ensures multiset(rest) == multiset(before + after)
  {
    assert multiset(rest) == multiset([x] + rest) - multiset([x]);
    assert multiset(before + after) == multiset(before + ([x] + after)) - multiset([x]);
  }

  lemma {:induction false} CountIgnoresOrder(op: Operator, opts: Options, current: Release, a: seq<string>, b: seq<string>)
    requires WellFormed(current) && multiset(a) == multiset(b)
    ensures CountNewer(op, opts, current, a) == CountNewer(op, opts, current, b)
    decreases |a|
  {
    hide Newer, WellFormed, CountNewer;
    if a == [] {
      assert |b| == |multiset(b)| == 0;
    } else {
      var x := a[0];
      assert x in multiset(b);
      var j :| 0 <= j < |b| && b[j] == x;
      var before, after := b[..j], b[j + 1..];
      assert a == [x] + a[1..];
      assert b == before + ([x] + after);
      SameRest(x, a[1..], before, after);
      CountIgnoresOrder(op, opts, current, a[1..], before + after);
      CountAppend(op, opts, current, [x], a[1..]);
      CountAppend(op, opts, current, before, [x] + after);
      CountAppend(op, opts, current, [x], after);
      CountAppend(op, opts, current, before, after);
    }
  }

  /** However the tags are ordered, the same tag is the latest and the same number is newer. */
  lemma TagOrderDoesNotMatter(op: Operator, opts: Options, current: Release, a: seq<string>, b: seq<string>, one: string, other: string)
    requires WellFormed(current) && multiset(a) == multiset(b)
    requires Latest(op, opts, a, one) && Latest(op, opts, b, other)
    ensures one == other && CountNewer(op, opts, current, a) == CountNewer(op, opts, current, b)
  {
    CountIgnoresOrder(op, opts, current, a, b);
    assert one in multiset(b) && other in multiset(a);
    var v, w := Eligible(op, opts, one).value, Eligible(op, opts, other).value;
    TopsIsOrder(v, one, w, other, v, one);
    hide Eligible, WellFormed, Tops, CountNewer;
  }

  // ---------------------------------------------------------------- Grove's release candidates

  function AlphaTag(core: seq<string>, n: string): string { Join(core) + "-alpha." + n }

  function CandidateTag(core: seq<string>, n: string, m: string): string { AlphaTag(core, n) + "-rc" + m }

  lemma DigitsThen(d: string, rest: string)
    requires IsNumeric(d) && (rest != "" ==> !Digit(rest[0]))
    ensures AfterDigits(d + rest) == Some(rest)
  {
    var n := DigitRun(d + rest);
    assert forall k :: 0 <= k < |d| ==> (d + rest)[k] == d[k];
    assert rest != "" ==> (d + rest)[|d|] == rest[0];
    assert (d + rest)[|d|..] == rest;
  }

  lemma TextThen(text: string, rest: string)
    ensures AfterText(text + rest, text) == Some(rest)
  {
    assert (text + rest)[..|text|] == text && (text + rest)[|text|..] == rest;
  }

  lemma AlphaThen(core: seq<string>, n: string, rest: string)
    requires |core| == 3 && AllCanonical(core) && IsNumeric(n) && (rest != "" ==> !Digit(rest[0]))
    ensures AfterAlpha(AlphaTag(core, n) + rest) == Some(rest)
  {
    assert Canonical(core[0]) && Canonical(core[1]) && Canonical(core[2]);
    var f := n + rest;
    var e := "-alpha." + f;
    var d := core[2] + e;
    var c := "." + d;
    var b := core[1] + c;
    var a := "." + b;
    DigitsThen(n, rest);
    TextThen("-alpha.", f);
    DigitsThen(core[2], e);
    TextThen(".", d);
    DigitsThen(core[1], c);
    TextThen(".", b);
    DigitsThen(core[0], a);
    TagSpelled(core, n, rest);
    hide AfterDigits, AfterText, Join;
  }

  lemma JoinOne(x: string)
    ensures Join([x]) == x
  {
  }

  lemma JoinCons(x: string, rest: seq<string>)
    requires rest != []
    ensures Join([x] + rest) == x + "." + Join(rest)
  {
    assert ([x] + rest)[1..] == rest;
  }

  lemma TagSpelled(core: seq<string>, n: string, rest: string)
    requires |core| == 3
    ensures AlphaTag(core, n) + rest == core[0] + ("." + (core[1] + ("." + (core[2] + ("-alpha." + (n + rest))))))
  {
    assert core == [core[0]] + [core[1], core[2]];
    JoinCons(core[0], [core[1], core[2]]);
    JoinCons(core[1], [core[2]]);
    assert [core[1], core[2]] == [core[1]] + [core[2]];
    hide Join;
    assert Join([core[2]]) == core[2] by { JoinOne(core[2]); }
  }

  predicate SharedAlpha(core: seq<string>, n: string) { |core| == 3 && AllCanonical(core) && Canonical(n) }

  function Promoted(core: seq<string>, n: string): Release { Release(core, ["alpha", n, "1"]) }

  function Candidate(core: seq<string>, n: string, m: string): Release { Release(core, ["alpha", n, "0", "rc", m]) }

  lemma NumericIsIdentifier(n: string)
    requires Canonical(n)
    ensures Identifier(n)
  {
  }

  lemma FixedIdentifiers()
    ensures Identifier("alpha") && !IsNumeric("alpha") && Identifier("rc") && !IsNumeric("rc")
    ensures Canonical("0") && Canonical("1") && Identifier("0") && Identifier("1")
  {
    assert !Digit("alpha"[0]) && !Digit("rc"[0]);
  }

  lemma ExpectedVersions(core: seq<string>, n: string, m: string)
    requires SharedAlpha(core, n) && Canonical(m)
    ensures WellFormed(Promoted(core, n)) && WellFormed(Candidate(core, n, m))
  {
    FixedIdentifiers();
    NumericIsIdentifier(n);
    NumericIsIdentifier(m);
    hide Canonical, Identifier, IsNumeric;
  }

  lemma DottedStays(head: string, n: string)
    requires IsNumeric(n) && head != "" && head[|head| - 1] == '.'
    ensures DotCounter(head + n) == head + n
  {
    var raw := head + n;
    assert forall k :: |head| <= k < |raw| ==> raw[k] == n[k - |head|];
    assert raw[|head| - 1] == '.';
    assert DigitTail(raw) == |n|;
    assert raw[..|head|] == head;
    LastOfSuffix(head, "-alpha");
    LastOfSuffix(head, "-beta");
    LastOfSuffix(head, "-rc");
  }

  lemma LastOfSuffix(s: string, suffix: string)
    requires s != "" && suffix != ""
    ensures EndsWith(s, suffix) ==> s[|s| - 1] == suffix[|suffix| - 1]
  {
    if EndsWith(s, suffix) {
      assert s[|s| - 1] == s[|s| - |suffix|..][|suffix| - 1];
    }
  }

  lemma PromotedParses(core: seq<string>, n: string)
    requires SharedAlpha(core, n)
    ensures ParseRelease(AlphaTag(core, n), true) == Some(Promoted(core, n))
  {
    var tag := AlphaTag(core, n);
    assert RewriteGrove(tag) == tag + ".1" by {
      assert tag + "" == tag;
      AlphaThen(core, n, "");
      hide AfterAlpha, AlphaTag;
    }
    assert DotCounter(tag + ".1") == tag + ".1" by {
      FixedIdentifiers();
      DottedStays(tag + ".", "1");
      assert tag + ".1" == tag + "." + "1";
      hide DotCounter, AlphaTag;
    }
    ExpectedVersions(core, n, n);
    RenderParses(Promoted(core, n), []);
    PromotedText(core, n);
    hide ParseSemver, DotCounter, RewriteGrove, WellFormed, AlphaTag, Render, Promoted;
  }

  lemma PromotedText(core: seq<string>, n: string)
    ensures Render(Promoted(core, n), []) == AlphaTag(core, n) + ".1"
  {
    assert ["alpha", n, "1"] == ["alpha"] + ([n] + ["1"]);
    JoinCons("alpha", [n] + ["1"]);
    JoinCons(n, ["1"]);
    JoinOne("1");
    hide Join;
  }

  lemma CandidateText(core: seq<string>, n: string, m: string)
    ensures Render(Candidate(core, n, m), []) == AlphaTag(core, n) + ".0.rc." + m
  {
    assert ["alpha", n, "0", "rc", m] == ["alpha"] + ([n] + (["0"] + (["rc"] + [m])));
    JoinCons("alpha", [n] + (["0"] + (["rc"] + [m])));
    JoinCons(n, ["0"] + (["rc"] + [m]));
    JoinCons("0", ["rc"] + [m]);
    JoinCons("rc", [m]);
    JoinOne(m);
    hide Join;
  }

  lemma CandidateRewritten(core: seq<string>, n: string, m: string)
    requires SharedAlpha(core, n) && Canonical(m)
    ensures RewriteGrove(CandidateTag(core, n, m)) == AlphaTag(core, n) + ".0.rc." + m
  {
    hide AfterAlpha, AfterText, AlphaTag;
    var tag, raw := AlphaTag(core, n), CandidateTag(core, n, m);
    var tail := "-rc" + m;
    AlphaThen(core, n, tail);
    assert raw == tag + tail;
    hide CandidateTag;
    TextThen("-rc", m);
    assert raw[..|raw| - |tail|] == tag;
  }

  lemma CandidateParses(core: seq<string>, n: string, m: string)
    requires SharedAlpha(core, n) && Canonical(m)
    ensures ParseRelease(CandidateTag(core, n, m), true) == Some(Candidate(core, n, m))
  {
    var tag := AlphaTag(core, n);
    CandidateRewritten(core, n, m);
    assert DotCounter(tag + ".0.rc." + m) == tag + ".0.rc." + m by {
      DottedStays(tag + ".0.rc.", m);
      hide DotCounter, AlphaTag;
    }
    ExpectedVersions(core, n, m);
    RenderParses(Candidate(core, n, m), []);
    CandidateText(core, n, m);
    hide ParseSemver, DotCounter, RewriteGrove, WellFormed, AlphaTag, CandidateTag, Render, Candidate;
  }

  /** alpha.N-rcM sorts below alpha.N, and alpha.N below every tag of a later alpha. */
  lemma GroveOrder(core: seq<string>, n: string, m: string, later: string, rc: string)
    requires SharedAlpha(core, n) && Canonical(m) && SharedAlpha(core, later) && Canonical(rc) && Value(n) < Value(later)
    ensures ParseRelease(CandidateTag(core, n, m), true) == Some(Candidate(core, n, m))
    ensures ParseRelease(AlphaTag(core, n), true) == Some(Promoted(core, n))
    ensures ParseRelease(CandidateTag(core, later, rc), true) == Some(Candidate(core, later, rc))
    ensures ParseRelease(AlphaTag(core, later), true) == Some(Promoted(core, later))
    ensures Compare(Candidate(core, n, m), Promoted(core, n)) < 0
    ensures Compare(Promoted(core, n), Candidate(core, later, rc)) < 0
    ensures Compare(Promoted(core, n), Promoted(core, later)) < 0
  {
    hide ParseRelease, AlphaTag, CandidateTag, Compare, ComparePrerelease, Canonical, AllCanonical, Value;
    CandidateParses(core, n, m);
    PromotedParses(core, n);
    CandidateParses(core, later, rc);
    PromotedParses(core, later);
    CandidateBelow(n, m);
    LaterAbove(n, ["1"], later, ["0", "rc", rc]);
    LaterAbove(n, ["1"], later, ["1"]);
    assert ["alpha", n] + ["1"] == ["alpha", n, "1"];
    assert ["alpha", later] + ["0", "rc", rc] == ["alpha", later, "0", "rc", rc];
    assert ["alpha", later] + ["1"] == ["alpha", later, "1"];
    SameCore(core, ["alpha", n, "0", "rc", m], ["alpha", n, "1"]);
    SameCore(core, ["alpha", n, "1"], ["alpha", later, "0", "rc", rc]);
    SameCore(core, ["alpha", n, "1"], ["alpha", later, "1"]);
  }

  lemma SameCore(core: seq<string>, left: seq<string>, right: seq<string>)
    requires left != [] && right != []
    ensures Compare(Release(core, left), Release(core, right)) == ComparePrerelease(left, right)
  {
    CoreOrder(core, core, core);
    hide CompareCore, ComparePrerelease;
  }

  lemma CandidateBelow(n: string, m: string)
    ensures ComparePrerelease(["alpha", n, "0", "rc", m], ["alpha", n, "1"]) < 0
  {
    IdentifierOrder("alpha", "alpha", "alpha");
    IdentifierOrder(n, n, n);
    FixedIdentifiers();
    assert CompareIdentifier("0", "1") == -1;
    var l, r := ["alpha", n, "0", "rc", m], ["alpha", n, "1"];
    assert l[1..] == [n, "0", "rc", m] && r[1..] == [n, "1"];
    assert l[1..][1..] == ["0", "rc", m] && r[1..][1..] == ["1"];
    hide CompareIdentifier;
    assert ComparePrerelease(l[1..][1..], r[1..][1..]) == -1;
    assert ComparePrerelease(l[1..], r[1..]) == -1;
  }

  lemma LaterAbove(n: string, rest: seq<string>, later: string, other: seq<string>)
    requires Canonical(n) && Canonical(later) && Value(n) < Value(later)
    ensures ComparePrerelease(["alpha", n] + rest, ["alpha", later] + other) < 0
  {
    IdentifierOrder("alpha", "alpha", "alpha");
    NumericIsInteger(n, later);
    assert CompareIdentifier(n, later) == -1;
    var l, r := ["alpha", n] + rest, ["alpha", later] + other;
    assert l[1..][0] == n && r[1..][0] == later;
    hide CompareIdentifier;
    assert ComparePrerelease(l[1..], r[1..]) == -1;
  }

  // ---------------------------------------------------------------- which tags count

  /** A tag with the operator's prefix is judged by what follows the prefix: it counts if it parses, is not excluded, and has no
      prerelease unless it is a promoted alpha or prereleases are asked for. */
  lemma PrefixedTag(op: Operator, opts: Options, raw: string, v: Release)
    requires ParseRelease(raw, op.alpha) == Some(v)
    ensures var tag := op.prefix + raw;
            Eligible(op, opts, tag)
            == if tag in opts.excludedTags then None
               else if v.prerelease == [] || opts.includePrereleases || (op.alpha && AfterAlpha(raw) == Some("")) then Some(v)
               else None
  {
    hide ParseRelease, AfterAlpha;
    assert (op.prefix + raw)[..|op.prefix|] == op.prefix && (op.prefix + raw)[|op.prefix|..] == raw;
  }

  lemma StableSpelled(core: seq<string>)
    requires |core| == 3
    ensures Join(core) == core[0] + ("." + (core[1] + ("." + core[2])))
  {
    assert core == [core[0]] + [core[1], core[2]];
    JoinCons(core[0], [core[1], core[2]]);
    JoinCons(core[1], [core[2]]);
    assert [core[1], core[2]] == [core[1]] + [core[2]];
    JoinOne(core[2]);
    hide Join;
  }

  lemma NoAlpha(core: seq<string>)
    requires |core| == 3 && AllCanonical(core)
    ensures AfterAlpha(Join(core)).None?
  {
    assert Canonical(core[0]) && Canonical(core[1]) && Canonical(core[2]);
    var d := core[2];
    var c := "." + d;
    var b := core[1] + c;
    var a := "." + b;
    assert d + "" == d;
    DigitsThen(d, "");
    TextThen(".", d);
    DigitsThen(core[1], c);
    TextThen(".", b);
    DigitsThen(core[0], a);
    StableSpelled(core);
    assert AfterText("", "-alpha.").None?;
    hide AfterDigits, AfterText, Join;
  }

  lemma StableParses(core: seq<string>, alpha: bool)
    requires |core| == 3 && AllCanonical(core)
    ensures ParseRelease(Join(core), alpha) == Some(Release(core, []))
  {
    var raw := Join(core);
    NoAlpha(core);
    assert RewriteGrove(raw) == raw by { hide AfterAlpha, Join; }
    StableDots(core);
    RenderParses(Release(core, []), []);
    StableRendered(core);
    hide ParseSemver, DotCounter, RewriteGrove, Join, AfterAlpha, Render;
  }

  lemma StableRendered(core: seq<string>)
    ensures Render(Release(core, []), []) == Join(core)
  {
    hide Join;
  }

  lemma StableDots(core: seq<string>)
    requires |core| == 3 && AllCanonical(core)
    ensures DotCounter(Join(core)) == Join(core)
  {
    StableSpelled(core);
    assert Canonical(core[2]);
    var head := core[0] + ("." + (core[1] + "."));
    assert core[0] + ("." + (core[1] + ("." + core[2]))) == head + core[2];
    hide DotCounter, Join;
    DottedStays(head, core[2]);
  }

  /** A plain version counts in every channel, unless it is excluded. */
  lemma StableIsEligible(op: Operator, opts: Options, core: seq<string>)
    requires |core| == 3 && AllCanonical(core)
    ensures var tag := op.prefix + Join(core);
            Eligible(op, opts, tag) == if tag in opts.excludedTags then None else Some(Release(core, []))
  {
    hide ParseRelease, Join, Eligible;
    StableParses(core, op.alpha);
    PrefixedTag(op, opts, Join(core), Release(core, []));
  }

  /** In the alpha channel a promoted alpha always counts; its candidates only where prereleases are asked for. */
  lemma AlphaIsEligible(op: Operator, opts: Options, core: seq<string>, n: string, m: string)
    requires op.alpha && SharedAlpha(core, n) && Canonical(m)
    ensures var tag := op.prefix + AlphaTag(core, n);
            Eligible(op, opts, tag) == if tag in opts.excludedTags then None else Some(Promoted(core, n))
    ensures var tag := op.prefix + CandidateTag(core, n, m);
            Eligible(op, opts, tag) == if tag in opts.excludedTags || !opts.includePrereleases then None else Some(Candidate(core, n, m))
  {
    hide ParseRelease, AlphaTag, AfterAlpha, Eligible;
    PromotedParses(core, n);
    CandidateParses(core, n, m);
    AlphaEnds(core, n, m);
    PrefixedTag(op, opts, AlphaTag(core, n), Promoted(core, n));
    PrefixedTag(op, opts, CandidateTag(core, n, m), Candidate(core, n, m));
  }

  lemma AlphaEnds(core: seq<string>, n: string, m: string)
    requires SharedAlpha(core, n) && Canonical(m)
    ensures AfterAlpha(AlphaTag(core, n)) == Some("") && AfterAlpha(CandidateTag(core, n, m)) == Some("-rc" + m)
  {
    hide AfterAlpha, AlphaTag;
    assert AlphaTag(core, n) + "" == AlphaTag(core, n);
    AlphaThen(core, n, "");
    AlphaThen(core, n, "-rc" + m);
    assert CandidateTag(core, n, m) == AlphaTag(core, n) + ("-rc" + m);
  }
}
