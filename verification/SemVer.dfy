/** Release versions: Semantic Versioning 2.0.0 over decimal strings of any length, with Grove's release candidates. */
module SemVer {
  import opened Basics

  // ---------------------------------------------------------------- text

  predicate Digit(c: char) { '0' <= c <= '9' }

  predicate IdentifierChar(c: char) { Digit(c) || 'a' <= c <= 'z' || 'A' <= c <= 'Z' || c == '-' }

  /** isNumeric: a digit string. */
  predicate IsNumeric(s: string) { s != "" && forall i :: 0 <= i < |s| ==> Digit(s[i]) }

  predicate Canonical(s: string) { IsNumeric(s) && (|s| > 1 ==> s[0] != '0') }

  predicate Identifier(s: string) { s != "" && forall i :: 0 <= i < |s| ==> IdentifierChar(s[i]) }

  /** Where `s` first has one of the characters, or its length. */
  function IndexOf(s: string, stops: set<char>): (i: nat)
    ensures i <= |s| && (forall k :: 0 <= k < i ==> s[k] !in stops) && (i < |s| ==> s[i] in stops)
  {
    if s == "" || s[0] in stops then 0 else 1 + IndexOf(s[1..], stops)
  }

  function Split(s: string): (parts: seq<string>)
    ensures parts != []
    decreases |s|
  {
    var i := IndexOf(s, {'.'});
    if i == |s| then [s] else [s[..i]] + Split(s[i + 1..])
  }

  function Join(parts: seq<string>): string {
    if parts == [] then "" else if |parts| == 1 then parts[0] else parts[0] + "." + Join(parts[1..])
  }

  predicate Free(s: string, stops: set<char>) { forall k :: 0 <= k < |s| ==> s[k] !in stops }

  lemma IndexAt(s: string, rest: string, stops: set<char>)
    requires Free(s, stops) && (rest != "" ==> rest[0] in stops)
    ensures IndexOf(s + rest, stops) == |s|
  {
    assert forall k :: 0 <= k < |s| ==> (s + rest)[k] == s[k];
    assert rest != "" ==> (s + rest)[|s|] == rest[0];
  }

  lemma {:induction false} SplitJoin(parts: seq<string>)
    requires parts != [] && forall i :: 0 <= i < |parts| ==> Free(parts[i], {'.'})
    ensures Split(Join(parts)) == parts
    decreases |parts|
  {
    if |parts| == 1 {
      IndexAt(parts[0], "", {'.'});
      assert parts[0] + "" == parts[0];
    } else {
      var rest := Join(parts[1..]);
      SplitJoin(parts[1..]);
      IndexAt(parts[0], "." + rest, {'.'});
      var whole := parts[0] + ("." + rest);
      assert Join(parts) == whole;
      assert whole[..|parts[0]|] == parts[0] && whole[|parts[0]| + 1..] == rest;
    }
  }

  lemma {:induction false} JoinSplit(s: string)
    ensures Join(Split(s)) == s
    ensures forall i :: 0 <= i < |Split(s)| ==> Free(Split(s)[i], {'.'})
    decreases |s|
  {
    var i := IndexOf(s, {'.'});
    if i < |s| {
      JoinSplit(s[i + 1..]);
      assert s == s[..i] + "." + s[i + 1..];
      assert Split(s)[1..] == Split(s[i + 1..]);
    }
  }

  lemma {:induction false} JoinFree(parts: seq<string>, stops: set<char>)
    requires '.' !in stops && forall i :: 0 <= i < |parts| ==> Free(parts[i], stops)
    ensures Free(Join(parts), stops)
    decreases |parts|
  {
    if |parts| > 1 {
      JoinFree(parts[1..], stops);
    }
  }

  // ---------------------------------------------------------------- parsing

  datatype Release = Release(core: seq<string>, prerelease: seq<string>)

  predicate AllCanonical(parts: seq<string>) { forall i :: 0 <= i < |parts| ==> Canonical(parts[i]) }

  predicate AllIdentifiers(parts: seq<string>) { forall i :: 0 <= i < |parts| ==> Identifier(parts[i]) }

  /** A version the parser can return. */
  predicate WellFormed(v: Release) {
    && |v.core| == 3 && AllCanonical(v.core)
    && (forall i :: 0 <= i < |v.prerelease| ==> Identifier(v.prerelease[i]) && (IsNumeric(v.prerelease[i]) ==> Canonical(v.prerelease[i])))
  }

  /** The text of a version and build metadata. */
  function Render(v: Release, build: seq<string>): string {
    Join(v.core) + (if v.prerelease == [] then "" else "-" + Join(v.prerelease)) + (if build == [] then "" else "+" + Join(build))
  }

  function AfterPlus(rest: string): Option<seq<string>> {
    if rest == "" then Some([])
    else if rest[0] == '+' && AllIdentifiers(Split(rest[1..])) then Some(Split(rest[1..]))
    else None
  }

  /** The version pattern, and the rejection of numeric identifiers with leading zeros. */
  function ParseSemver(raw: string): Option<Release> {
    var i := IndexOf(raw, {'-', '+'});
    var core := Split(raw[..i]);
    if |core| != 3 || !AllCanonical(core) then None
    else if i < |raw| && raw[i] == '-' then
      var rest := raw[i + 1..];
      var j := IndexOf(rest, {'+'});
      var pre := Split(rest[..j]);
      if AllIdentifiers(pre) && AfterPlus(rest[j..]).Some? && WellFormed(Release(core, pre)) then Some(Release(core, pre)) else None
    else if AfterPlus(raw[i..]).Some? then Some(Release(core, []))
    else None
  }

  predicate EndsWith(s: string, suffix: string) { |suffix| <= |s| && s[|s| - |suffix|..] == suffix }

  predicate StartsWith(s: string, prefix: string) { |prefix| <= |s| && s[..|prefix|] == prefix }

  /** The length of the longest run of digits at the end. */
  function DigitTail(s: string): (n: nat)
    ensures n <= |s| && (forall k :: |s| - n <= k < |s| ==> Digit(s[k])) && (n < |s| ==> !Digit(s[|s| - n - 1]))
  {
    if s == "" || !Digit(s[|s| - 1]) then 0 else 1 + DigitTail(s[..|s| - 1])
  }

  /** Undotted counters count: alphaN, betaN and rcN at the end become alpha.N, beta.N and rc.N. */
  function DotCounter(raw: string): string {
    var n := DigitTail(raw);
    var head := raw[..|raw| - n];
    if n > 0 && (EndsWith(head, "-alpha") || EndsWith(head, "-beta") || EndsWith(head, "-rc")) then head + "." + raw[|raw| - n..]
    else raw
  }

  /** Drop a run of at least one digit. */
  function AfterDigits(s: string): Option<string> {
    var n := DigitRun(s);
    if n == 0 then None else Some(s[n..])
  }

  function DigitRun(s: string): (n: nat)
    ensures n <= |s| && (forall k :: 0 <= k < n ==> Digit(s[k])) && (n < |s| ==> !Digit(s[n]))
  {
    if s == "" || !Digit(s[0]) then 0 else 1 + DigitRun(s[1..])
  }

  function AfterText(s: string, text: string): Option<string> {
    if StartsWith(s, text) then Some(s[|text|..]) else None
  }

  /** What follows D.D.D-alpha.D at the start of a Grove tag. */
  function AfterAlpha(raw: string): (rest: Option<string>)
    ensures rest.Some? ==> |rest.value| <= |raw| && raw[|raw| - |rest.value|..] == rest.value
  {
    var a := AfterDigits(raw);
    if a.None? then None else
    var b := AfterText(a.value, ".");
    if b.None? then None else
    var c := AfterDigits(b.value);
    if c.None? then None else
    var d := AfterText(c.value, ".");
    if d.None? then None else
    var e := AfterDigits(d.value);
    if e.None? then None else
    var f := AfterText(e.value, "-alpha.");
    if f.None? then None else AfterDigits(f.value)
  }

  /** Grove promotes alpha.N-rcM to alpha.N, so the candidate is rewritten to sort below it. */
  function RewriteGrove(raw: string): string {
    var rest := AfterAlpha(raw);
    if rest.None? then raw
    else if rest.value == "" then raw + ".1"
    else
      var counter := AfterText(rest.value, "-rc");
      if counter.Some? && IsNumeric(counter.value) then raw[..|raw| - |rest.value|] + ".0.rc." + counter.value else raw
  }

  function ParseRelease(raw: string, alpha: bool): Option<Release> {
    ParseSemver(DotCounter(if alpha then RewriteGrove(raw) else raw))
  }

  // ---------------------------------------------------------------- what the parser accepts

  lemma CanonicalIsFree(parts: seq<string>)
    requires AllCanonical(parts)
    ensures forall i :: 0 <= i < |parts| ==> Free(parts[i], {'.'}) && Free(parts[i], {'-', '+'})
  {
    forall i | 0 <= i < |parts| ensures Free(parts[i], {'.'}) && Free(parts[i], {'-', '+'}) {
      assert Canonical(parts[i]);
    }
  }

  lemma IdentifiersAreFree(parts: seq<string>)
    requires AllIdentifiers(parts)
    ensures forall i :: 0 <= i < |parts| ==> Free(parts[i], {'.'}) && Free(parts[i], {'+'})
  {
    forall i | 0 <= i < |parts| ensures Free(parts[i], {'.'}) && Free(parts[i], {'+'}) {
      assert Identifier(parts[i]);
    }
  }

  lemma PlusRoundTrip(build: seq<string>)
    requires AllIdentifiers(build)
    ensures AfterPlus(if build == [] then "" else "+" + Join(build)) == Some(build)
  {
    if build != [] {
      IdentifiersAreFree(build);
      SplitJoin(build);
      assert ("+" + Join(build))[1..] == Join(build);
    }
  }

  lemma CutCore(core: seq<string>, tail: string)
    requires core != [] && AllCanonical(core) && (tail != "" ==> tail[0] in {'-', '+'})
    ensures var raw := Join(core) + tail;
            var i := IndexOf(raw, {'-', '+'});
            raw[..i] == Join(core) && raw[i..] == tail && Split(Join(core)) == core
  {
    CanonicalIsFree(core);
    SplitJoin(core);
    JoinFree(core, {'-', '+'});
    IndexAt(Join(core), tail, {'-', '+'});
    hide Split, Join, AllCanonical;
  }

  lemma CutPrerelease(pre: seq<string>, plus: string)
    requires pre != [] && AllIdentifiers(pre) && (plus != "" ==> plus[0] == '+')
    ensures var tail := Join(pre) + plus;
            var j := IndexOf(tail, {'+'});
            tail[..j] == Join(pre) && tail[j..] == plus && Split(Join(pre)) == pre
  {
    IdentifiersAreFree(pre);
    SplitJoin(pre);
    JoinFree(pre, {'+'});
    IndexAt(Join(pre), plus, {'+'});
    hide Split, Join, AllIdentifiers;
  }

  lemma CutDash(core: seq<string>, tail: string)
    requires core != [] && AllCanonical(core)
    ensures var raw := Join(core) + ("-" + tail);
            var i := IndexOf(raw, {'-', '+'});
            i < |raw| && raw[i] == '-' && raw[..i] == Join(core) && raw[i + 1..] == tail && Split(Join(core)) == core
  {
    CutCore(core, "-" + tail);
    hide Split, Join, AllCanonical, IndexOf;
    var raw := Join(core) + ("-" + tail);
    var i := IndexOf(raw, {'-', '+'});
    assert |raw| == i + |raw[i..]|;
    assert raw[i] == raw[i..][0];
    assert raw[i + 1..] == raw[i..][1..];
  }

  lemma PrereleaseParses(core: seq<string>, pre: seq<string>, plus: string)
    requires |core| == 3 && AllCanonical(core) && pre != [] && AllIdentifiers(pre) && AfterPlus(plus).Some?
    ensures ParseSemver(Join(core) + ("-" + (Join(pre) + plus)))
         == if WellFormed(Release(core, pre)) then Some(Release(core, pre)) else None
  {
    CutDash(core, Join(pre) + plus);
    CutPrerelease(pre, plus);
    hide Split, Join, AllCanonical, AllIdentifiers, WellFormed, IndexOf, AfterPlus;
  }

  lemma PlainParses(core: seq<string>, plus: string)
    requires |core| == 3 && AllCanonical(core) && AfterPlus(plus).Some?
    ensures ParseSemver(Join(core) + plus) == Some(Release(core, []))
  {
    CutCore(core, plus);
    var raw := Join(core) + plus;
    var i := IndexOf(raw, {'-', '+'});
    assert i < |raw| ==> raw[i] == raw[i..][0];
    hide Split, Join, AllCanonical, AllIdentifiers, IndexOf;
  }

  /** Every version written in the standard's form parses back to itself, whatever its build metadata. */
  lemma RenderParses(v: Release, build: seq<string>)
    requires WellFormed(v) && AllIdentifiers(build)
    ensures ParseSemver(Render(v, build)) == Some(v)
  {
    PlusRoundTrip(build);
    var plus := if build == [] then "" else "+" + Join(build);
    RenderShape(v, build);
    if v.prerelease == [] {
      PlainParses(v.core, plus);
    } else {
      PrereleaseParses(v.core, v.prerelease, plus);
    }
    hide ParseSemver, Join, AfterPlus, Render;
  }

  lemma RenderShape(v: Release, build: seq<string>)
    ensures var plus := if build == [] then "" else "+" + Join(build);
            Render(v, build) == if v.prerelease == [] then Join(v.core) + plus else Join(v.core) + ("-" + (Join(v.prerelease) + plus))
  {
    hide Join;
  }

  lemma PlusParses(rest: string)
    requires AfterPlus(rest).Some?
    ensures var build := AfterPlus(rest).value;
            AllIdentifiers(build) && rest == if build == [] then "" else "+" + Join(build)
  {
    if rest != "" {
      JoinSplit(rest[1..]);
      assert rest == "+" + rest[1..];
    }
  }

  lemma PrereleaseRendered(raw: string, i: nat, rest: string, j: nat) returns (build: seq<string>)
    requires i < |raw| && raw[i] == '-' && rest == raw[i + 1..] && j <= |rest|
    requires AfterPlus(rest[j..]).Some?
    ensures var v := Release(Split(raw[..i]), Split(rest[..j])); AllIdentifiers(build) && raw == Render(v, build)
  {
    JoinSplit(raw[..i]);
    JoinSplit(rest[..j]);
    PlusParses(rest[j..]);
    build := AfterPlus(rest[j..]).value;
    RenderShape(Release(Split(raw[..i]), Split(rest[..j])), build);
    hide Split, Join, AfterPlus, AllIdentifiers, Render;
    DashedWhole(raw, i, rest, j);
  }

  lemma DashedWhole(raw: string, i: nat, rest: string, j: nat)
    requires i < |raw| && raw[i] == '-' && rest == raw[i + 1..] && j <= |rest|
    ensures raw == raw[..i] + ("-" + (rest[..j] + rest[j..]))
  {
    assert rest == rest[..j] + rest[j..];
  }

  /** And nothing else parses: an accepted text is a well-formed version in that form. */
  lemma ParsesOnlyRendered(raw: string) returns (build: seq<string>)
    requires ParseSemver(raw).Some?
    ensures var v := ParseSemver(raw).value; WellFormed(v) && AllIdentifiers(build) && raw == Render(v, build)
  {
    var i := IndexOf(raw, {'-', '+'});
    if i < |raw| && raw[i] == '-' {
      var rest := raw[i + 1..];
      hide Split, Join, AllIdentifiers, AllCanonical, WellFormed, Render;
      build := PrereleaseRendered(raw, i, rest, IndexOf(rest, {'+'}));
    } else {
      JoinSplit(raw[..i]);
      PlusParses(raw[i..]);
      build := AfterPlus(raw[i..]).value;
      hide Split, Join, AfterPlus, AllIdentifiers;
      assert raw == raw[..i] + raw[i..];
    }
  }

  // ---------------------------------------------------------------- comparing

  function Sign(a: int, b: int): int { if a < b then -1 else if a > b then 1 else 0 }

  /** strings.Compare. */
  function CompareText(a: string, b: string): int {
    if a == "" || b == "" then Sign(|a|, |b|)
    else if a[0] != b[0] then Sign(a[0] as int, b[0] as int)
    else CompareText(a[1..], b[1..])
  }

  function CompareNumeric(left: string, right: string): int {
    if |left| != |right| then Sign(|left|, |right|) else CompareText(left, right)
  }

  function CompareIdentifier(left: string, right: string): int {
    if IsNumeric(left) && IsNumeric(right) then CompareNumeric(left, right)
    else if IsNumeric(left) then -1
    else if IsNumeric(right) then 1
    else CompareText(left, right)
  }

  function CompareCore(left: seq<string>, right: seq<string>): int
    requires |left| == |right|
  {
    if left == [] then 0
    else
      var order := CompareNumeric(left[0], right[0]);
      if order != 0 then order else CompareCore(left[1..], right[1..])
  }

  function ComparePrerelease(left: seq<string>, right: seq<string>): int {
    if left == [] || right == [] then Sign(|left|, |right|)
    else
      var order := CompareIdentifier(left[0], right[0]);
      if order != 0 then order else ComparePrerelease(left[1..], right[1..])
  }

  function Compare(v: Release, other: Release): int
    requires |v.core| == |other.core|
  {
    var order := CompareCore(v.core, other.core);
    if order != 0 then order
    else if v.prerelease == [] || other.prerelease == [] then Sign(|other.prerelease|, |v.prerelease|)
    else ComparePrerelease(v.prerelease, other.prerelease)
  }

  // ---------------------------------------------------------------- decimal strings

  function Pow10(n: nat): (p: nat)
    ensures p > 0
  {
    if n == 0 then 1 else 10 * Pow10(n - 1)
  }

  function DigitValue(c: char): (d: nat)
    requires Digit(c)
    ensures d <= 9
  {
    c as int - '0' as int
  }

  /** The number a digit string denotes. */
  function Value(s: string): nat
    requires forall i :: 0 <= i < |s| ==> Digit(s[i])
  {
    if s == "" then 0 else 10 * Value(s[..|s| - 1]) + DigitValue(s[|s| - 1])
  }

  lemma {:induction false} ValueBound(s: string)
    requires forall i :: 0 <= i < |s| ==> Digit(s[i])
    ensures Value(s) < Pow10(|s|)
    ensures s != "" && s[0] != '0' ==> Value(s) >= Pow10(|s| - 1)
    decreases |s|
  {
    if s != "" {
      ValueBound(s[..|s| - 1]);
    }
  }

  /** The last characters decide only when the rest is equal. */
  lemma {:induction false} TextByLast(a: string, b: string)
    requires |a| == |b| > 0
    ensures var n := |a| - 1;
            var order := CompareText(a[..n], b[..n]);
            CompareText(a, b) == if order != 0 then order else Sign(a[n] as int, b[n] as int)
    decreases |a|
  {
    if |a| > 1 {
      TextByLast(a[1..], b[1..]);
      var n := |a| - 1;
      assert a[1..][..n - 1] == a[..n][1..] && b[1..][..n - 1] == b[..n][1..];
    }
  }

  lemma {:induction false} SameLengthOrder(a: string, b: string)
    requires |a| == |b| && (forall i :: 0 <= i < |a| ==> Digit(a[i]) && Digit(b[i]))
    ensures CompareText(a, b) == Sign(Value(a), Value(b))
    decreases |a|
  {
    if a != "" {
      TextByLast(a, b);
      SameLengthOrder(a[..|a| - 1], b[..|b| - 1]);
    }
  }

  lemma {:induction false} Pow10Grows(m: nat, n: nat)
    requires m <= n
    ensures Pow10(m) <= Pow10(n)
    decreases n
  {
    if m < n {
      Pow10Grows(m, n - 1);
    }
  }

  /** Comparing canonical decimal strings by length and then text is comparing the integers they denote. */
  lemma NumericIsInteger(left: string, right: string)
    requires Canonical(left) && Canonical(right)
    ensures CompareNumeric(left, right) == Sign(Value(left), Value(right))
  {
    if |left| == |right| {
      SameLengthOrder(left, right);
    } else if |left| < |right| {
      ShorterIsSmaller(left, right);
    } else {
      ShorterIsSmaller(right, left);
    }
  }

  lemma ShorterIsSmaller(left: string, right: string)
    requires Canonical(left) && Canonical(right) && |left| < |right|
    ensures Value(left) < Value(right)
  {
    ValueBound(left);
    ValueBound(right);
    Pow10Grows(|left|, |right| - 1);
  }

  // ---------------------------------------------------------------- a total order

  /** What makes a comparison of three values a piece of a total order. */
  predicate Ordered(ab: int, ba: int, bc: int, ac: int, same: bool) {
    && ab in {-1, 0, 1} && ba == -ab && (ab == 0 <==> same)
    && (ab <= 0 && bc <= 0 ==> ac <= 0)
    && (ab <= 0 && bc <= 0 && ac == 0 ==> ab == 0 && bc == 0)
  }

  lemma {:induction false} TextOrder(a: string, b: string, c: string)
    ensures Ordered(CompareText(a, b), CompareText(b, a), CompareText(b, c), CompareText(a, c), a == b)
    decreases |a|
  {
    if a != "" && b != "" && a[0] == b[0] {
      assert a == b <==> a[1..] == b[1..] by {
        assert a == [a[0]] + a[1..] && b == [b[0]] + b[1..];
      }
    }
    if a != "" && b != "" {
      TextOrder(a[1..], b[1..], if c == "" then "" else c[1..]);
    }
  }

  lemma NumericOrder(a: string, b: string, c: string)
    ensures Ordered(CompareNumeric(a, b), CompareNumeric(b, a), CompareNumeric(b, c), CompareNumeric(a, c), a == b)
  {
    TextOrder(a, b, c);
  }

  lemma IdentifierOrder(a: string, b: string, c: string)
    ensures Ordered(CompareIdentifier(a, b), CompareIdentifier(b, a), CompareIdentifier(b, c), CompareIdentifier(a, c), a == b)
  {
    TextOrder(a, b, c);
    NumericOrder(a, b, c);
    hide CompareText, CompareNumeric;
  }

  lemma {:induction false} CoreOrder(a: seq<string>, b: seq<string>, c: seq<string>)
    requires |a| == |b| == |c|
    ensures Ordered(CompareCore(a, b), CompareCore(b, a), CompareCore(b, c), CompareCore(a, c), a == b)
    decreases |a|
  {
    if a != [] {
      NumericOrder(a[0], b[0], c[0]);
      NumericOrder(b[0], c[0], a[0]);
      CoreOrder(a[1..], b[1..], c[1..]);
      assert a == b <==> a[0] == b[0] && a[1..] == b[1..] by {
        assert a == [a[0]] + a[1..] && b == [b[0]] + b[1..];
      }
      hide CompareNumeric;
    }
  }

  lemma {:induction false} PrereleaseOrder(a: seq<string>, b: seq<string>, c: seq<string>)
    ensures Ordered(ComparePrerelease(a, b), ComparePrerelease(b, a), ComparePrerelease(b, c), ComparePrerelease(a, c), a == b)
    decreases |a|
  {
    if a != [] && b != [] {
      var c0, c1 := if c == [] then "" else c[0], if c == [] then [] else c[1..];
      IdentifierOrder(a[0], b[0], c0);
      IdentifierOrder(b[0], c0, a[0]);
      PrereleaseOrder(a[1..], b[1..], c1);
      assert a == b <==> a[0] == b[0] && a[1..] == b[1..] by {
        assert a == [a[0]] + a[1..] && b == [b[0]] + b[1..];
      }
      hide CompareIdentifier;
    }
  }

  /** Precedence is a total order on what the parser accepts, and only identical versions compare equal. */
  lemma CompareIsTotalOrder(a: Release, b: Release, c: Release)
    requires |a.core| == |b.core| == |c.core|
    ensures Ordered(Compare(a, b), Compare(b, a), Compare(b, c), Compare(a, c), a == b)
  {
    CoreOrder(a.core, b.core, c.core);
    CoreOrder(b.core, c.core, a.core);
    PrereleaseOrder(a.prerelease, b.prerelease, c.prerelease);
    PrereleaseOrder(b.prerelease, c.prerelease, a.prerelease);
    hide CompareCore;
  }

  // ---------------------------------------------------------------- section 11 of Semantic Versioning 2.0.0

  /** Item 11.4: numerically if both are numbers, numbers first, otherwise lexically. */
  predicate LowerIdentifier(left: string, right: string) {
    if IsNumeric(left) && IsNumeric(right) then Value(left) < Value(right)
    else if IsNumeric(left) then true
    else if IsNumeric(right) then false
    else LowerText(left, right)
  }

  predicate LowerText(left: string, right: string) {
    exists i :: 0 <= i <= |left| && i <= |right| && left[..i] == right[..i]
                && (if i == |left| then i < |right| else i < |right| && left[i] < right[i])
  }

  /** The first field that differs decides. */
  predicate LowerPrerelease(left: seq<string>, right: seq<string>) {
    exists i :: 0 <= i <= |left| && i <= |right| && left[..i] == right[..i]
                && (if i == |left| then i < |right| else i < |right| && LowerIdentifier(left[i], right[i]))
  }

  predicate LowerCore(left: seq<string>, right: seq<string>)
    requires |left| == |right| && AllCanonical(left) && AllCanonical(right)
  {
    exists i :: 0 <= i < |left| && left[..i] == right[..i] && Value(left[i]) < Value(right[i])
  }

  /** Items 11.2, 11.3 and 11.4. */
  predicate LowerPrecedence(v: Release, w: Release)
    requires WellFormed(v) && WellFormed(w)
  {
    || LowerCore(v.core, w.core)
    || (v.core == w.core && v.prerelease != [] && w.prerelease == [])
    || (v.core == w.core && v.prerelease != [] && w.prerelease != [] && LowerPrerelease(v.prerelease, w.prerelease))
  }

  lemma SameHead<T>(left: seq<T>, right: seq<T>, i: nat)
    requires i <= |left| && i <= |right|
    ensures left[..i] == right[..i] && i > 0 ==> left[0] == right[0]
  {
    if i > 0 {
      assert left[0] == left[..i][0] && right[0] == right[..i][0];
    }
  }

  lemma {:induction false} TextIsLexical(left: string, right: string)
    ensures CompareText(left, right) < 0 <==> LowerText(left, right)
    decreases |left|
  {
    if left == "" || right == "" {
      assert left[..0] == right[..0];
    } else if left[0] != right[0] {
      assert left[..0] == right[..0];
      if LowerText(left, right) {
        var i :| 0 <= i <= |left| && i <= |right| && left[..i] == right[..i]
                 && (if i == |left| then i < |right| else i < |right| && left[i] < right[i]);
        SameHead(left, right, i);
      }
    } else {
      TextIsLexical(left[1..], right[1..]);
      if LowerText(left[1..], right[1..]) {
        var i :| 0 <= i <= |left[1..]| && i <= |right[1..]| && left[1..][..i] == right[1..][..i]
                 && (if i == |left[1..]| then i < |right[1..]| else i < |right[1..]| && left[1..][i] < right[1..][i]);
        assert left[..i + 1] == [left[0]] + left[1..][..i] && right[..i + 1] == [right[0]] + right[1..][..i];
      }
      if LowerText(left, right) {
        var i :| 0 <= i <= |left| && i <= |right| && left[..i] == right[..i]
                 && (if i == |left| then i < |right| else i < |right| && left[i] < right[i]);
        assert i > 0;
        assert left[1..][..i - 1] == left[..i][1..] && right[1..][..i - 1] == right[..i][1..];
      }
    }
  }

  lemma IdentifierIsStandard(left: string, right: string)
    requires IsNumeric(left) ==> Canonical(left)
    requires IsNumeric(right) ==> Canonical(right)
    ensures CompareIdentifier(left, right) < 0 <==> LowerIdentifier(left, right)
  {
    if IsNumeric(left) && IsNumeric(right) {
      NumericIsInteger(left, right);
    }
    TextIsLexical(left, right);
  }

  predicate AllPrerelease(parts: seq<string>) {
    forall i :: 0 <= i < |parts| ==> IsNumeric(parts[i]) ==> Canonical(parts[i])
  }

  lemma {:induction false} PrereleaseIsStandard(left: seq<string>, right: seq<string>)
    requires AllPrerelease(left) && AllPrerelease(right)
    ensures ComparePrerelease(left, right) < 0 <==> LowerPrerelease(left, right)
    decreases |left|
  {
    if left == [] || right == [] {
      assert left[..0] == right[..0];
    } else {
      IdentifierIsStandard(left[0], right[0]);
      IdentifierOrder(left[0], right[0], right[0]);
      hide CompareIdentifier, LowerIdentifier;
      if left[0] != right[0] {
        assert left[..0] == right[..0];
        if LowerPrerelease(left, right) {
          var i :| 0 <= i <= |left| && i <= |right| && left[..i] == right[..i]
                   && (if i == |left| then i < |right| else i < |right| && LowerIdentifier(left[i], right[i]));
          SameHead(left, right, i);
        }
      } else {
        PrereleaseIsStandard(left[1..], right[1..]);
        assert !LowerIdentifier(left[0], right[0]);
        LowerShift(left, right);
      }
    }
  }

  lemma LowerShift(left: seq<string>, right: seq<string>)
    requires left != [] && right != [] && left[0] == right[0] && !LowerIdentifier(left[0], right[0])
    ensures LowerPrerelease(left, right) <==> LowerPrerelease(left[1..], right[1..])
  {
    hide LowerIdentifier;
    if LowerPrerelease(left[1..], right[1..]) {
      var i :| 0 <= i <= |left[1..]| && i <= |right[1..]| && left[1..][..i] == right[1..][..i]
               && (if i == |left[1..]| then i < |right[1..]| else i < |right[1..]| && LowerIdentifier(left[1..][i], right[1..][i]));
      assert left[..i + 1] == [left[0]] + left[1..][..i] && right[..i + 1] == [right[0]] + right[1..][..i];
    }
    if LowerPrerelease(left, right) {
      var i :| 0 <= i <= |left| && i <= |right| && left[..i] == right[..i]
               && (if i == |left| then i < |right| else i < |right| && LowerIdentifier(left[i], right[i]));
      assert i > 0;
      assert left[1..][..i - 1] == left[..i][1..] && right[1..][..i - 1] == right[..i][1..];
    }
  }

  lemma {:induction false} CoreIsStandard(left: seq<string>, right: seq<string>)
    requires |left| == |right| && AllCanonical(left) && AllCanonical(right)
    ensures CompareCore(left, right) < 0 <==> LowerCore(left, right)
    decreases |left|
  {
    if left != [] {
      NumericIsInteger(left[0], right[0]);
      NumericOrder(left[0], right[0], right[0]);
      CoreIsStandard(left[1..], right[1..]);
      hide CompareNumeric, Value;
      if left[0] != right[0] {
        assert left[..0] == right[..0];
        if LowerCore(left, right) {
          var i :| 0 <= i < |left| && left[..i] == right[..i] && Value(left[i]) < Value(right[i]);
          SameHead(left, right, i);
        }
      } else {
        if LowerCore(left[1..], right[1..]) {
          var i :| 0 <= i < |left[1..]| && left[1..][..i] == right[1..][..i] && Value(left[1..][i]) < Value(right[1..][i]);
          assert left[..i + 1] == [left[0]] + left[1..][..i] && right[..i + 1] == [right[0]] + right[1..][..i];
        }
        if LowerCore(left, right) {
          var i :| 0 <= i < |left| && left[..i] == right[..i] && Value(left[i]) < Value(right[i]);
          assert i > 0;
          assert left[1..][..i - 1] == left[..i][1..] && right[1..][..i - 1] == right[..i][1..];
        }
      }
    }
  }

  /** The comparison is the precedence the standard defines. */
  lemma CompareIsPrecedence(v: Release, w: Release)
    requires WellFormed(v) && WellFormed(w)
    ensures Compare(v, w) < 0 <==> LowerPrecedence(v, w)
  {
    CoreIsStandard(v.core, w.core);
    CoreOrder(v.core, w.core, w.core);
    PrereleaseIsStandard(v.prerelease, w.prerelease);
    hide CompareCore, ComparePrerelease, LowerCore, LowerPrerelease;
    assert v.core == w.core ==> !LowerCore(v.core, w.core);
  }
}
