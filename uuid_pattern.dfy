/**
 * `Handler::applyUuidRegexPattern`: every run that matches
 * `[A-Fa-f0-9]{8}-?[A-Fa-f0-9]{4}-?[A-Fa-f0-9]{4}-?[A-Fa-f0-9]{4}-?[A-Fa-f0-9]{12}`
 * is replaced by `UUID` (leftmost first, matches never overlap), then every
 * `/` and `-` becomes `_`. The result is the route part of a log action key.
 *
 * The regular expression is written out as a scanner. Each `-?` is greedy,
 * and backtracking over it can never help because `-` is not a hex digit, so
 * a match starting at a given position is unique: MatchFrom computes it.
 */
module UuidPattern {
  import opened Wrappers
  import opened Ascii

  /** The lengths of the five hex groups of a UUID. */
  const GroupSizes: seq<nat> := [8, 4, 4, 4, 12]

  const Placeholder: string := "UUID"

  /** The `n` characters of `s` from position `i` on exist and are hex digits. */
  predicate HexRun(s: string, i: nat, n: nat) {
    i + n <= |s| && forall k :: i <= k < i + n ==> IsHexDigit(s[k])
  }

  function Sum(gs: seq<nat>): nat {
    if gs == [] then 0 else gs[0] + Sum(gs[1..])
  }

  /**
   * Where a match of `groups[0]` hex digits, an optional hyphen, `groups[1]`
   * hex digits, ... that starts at position `i` of `s` ends, or None.
   */
  function MatchFrom(s: string, i: nat, groups: seq<nat>): (r: Option<nat>)
    requires i <= |s| && groups != []
    ensures r.Some? ==> i + Sum(groups) <= r.value <= |s|
    ensures r.Some? ==> r.value < i + Sum(groups) + |groups|
    decreases |groups|
  {
    var g := groups[0];
    if !HexRun(s, i, g) then None
    else if |groups| == 1 then Some(i + g)
    else
      var next := if i + g < |s| && s[i + g] == '-' then i + g + 1 else i + g;
      MatchFrom(s, next, groups[1..])
  }

  /** Every character a match covers is a hex digit or a hyphen. */
  lemma {:induction false} MatchCharset(s: string, i: nat, groups: seq<nat>)
    requires i <= |s| && groups != []
    requires MatchFrom(s, i, groups).Some?
    ensures forall k :: i <= k < MatchFrom(s, i, groups).value ==> IsHexDigit(s[k]) || s[k] == '-'
    decreases |groups|
  {
    var g := groups[0];
    if |groups| > 1 {
      var next := if i + g < |s| && s[i + g] == '-' then i + g + 1 else i + g;
      MatchCharset(s, next, groups[1..]);
    }
  }

  lemma SumOfGroupSizes()
    ensures Sum(GroupSizes) == 32
  {
    assert GroupSizes[1..] == [4, 4, 4, 12];
    assert GroupSizes[1..][1..] == [4, 4, 12];
    assert GroupSizes[1..][1..][1..] == [4, 12];
    assert GroupSizes[1..][1..][1..][1..] == [12];
  }

  /** The UUID pattern anchored at the start of `s`: the length of the match, if any. */
  function MatchUuid(s: string): (r: Option<nat>)
    ensures r.Some? ==> 32 <= r.value <= 36 && r.value <= |s|
  {
    SumOfGroupSizes();
    MatchFrom(s, 0, GroupSizes)
  }

  /**
   * `preg_replace($pattern, 'UUID', $s)`: never longer than its input, and
   * empty only when the input is.
   */
  function ReplaceUuids(s: string): (r: string)
    ensures |r| <= |s|
    ensures r == [] <==> s == []
    decreases |s|
  {
    if s == [] then []
    else match MatchUuid(s)
      case Some(n) => Placeholder + ReplaceUuids(s[n..])
      case None => [s[0]] + ReplaceUuids(s[1..])
  }

  function SeparatorToUnderscore(c: char): char {
    if c == '/' || c == '-' then '_' else c
  }

  /** `str_replace(['/', '-'], '_', $s)`. */
  function MapSeparators(s: string): (r: string)
    ensures |r| == |s|
    ensures forall i :: 0 <= i < |s| ==> r[i] == SeparatorToUnderscore(s[i])
  {
    seq(|s|, i requires 0 <= i < |s| => SeparatorToUnderscore(s[i]))
  }

  predicate NoSeparator(s: string) {
    forall i :: 0 <= i < |s| ==> s[i] != '/' && s[i] != '-'
  }

  /** No position of `s` starts a match of the UUID pattern. */
  predicate NoUuidIn(s: string) {
    forall i :: 0 <= i < |s| ==> MatchUuid(s[i..]).None?
  }

  /** `applyUuidRegexPattern`: the result never holds a `/` or a `-`. */
  function ApplyUuidRegexPattern(path: string): (r: string)
    ensures NoSeparator(r)
  {
    MapSeparators(ReplaceUuids(path))
  }

  // ---------------------------------------------------------------------
  // Which strings the scanner leaves alone

  /** Replacing shortens the text exactly when some UUID-shaped run is present. */
  lemma {:induction false} ReplaceShrinks(s: string)
    ensures !NoUuidIn(s) ==> |ReplaceUuids(s)| < |s|
    decreases |s|
  {
    if s != [] && !NoUuidIn(s) {
      match MatchUuid(s)
      case Some(n) =>
      case None =>
        var i :| 0 <= i < |s| && MatchUuid(s[i..]).Some?;
        assert i > 0;
        assert s[1..][i - 1..] == s[i..];
        ReplaceShrinks(s[1..]);
    }
  }

  /** A text without UUID-shaped runs is left exactly as it is, and only such a text. */
  lemma {:induction false} ReplaceFixpoint(s: string)
    ensures ReplaceUuids(s) == s <==> NoUuidIn(s)
    decreases |s|
  {
    ReplaceShrinks(s);
    if s != [] && NoUuidIn(s) {
      assert MatchUuid(s[0..]).None?;
      assert s[0..] == s;
      forall i | 0 <= i < |s[1..]| ensures MatchUuid(s[1..][i..]).None? {
        assert s[1..][i..] == s[i + 1..];
      }
      ReplaceFixpoint(s[1..]);
    }
  }

  /** A text shorter than 32 characters holds no UUID. */
  lemma ShortHasNoUuid(s: string)
    requires |s| < 32
    ensures NoUuidIn(s)
  {
  }

  /**
   * The strings that normalisation leaves unchanged are exactly those with no
   * `/`, no `-` and no UUID-shaped run.
   */
  lemma NormalizeFixpoint(s: string)
    ensures ApplyUuidRegexPattern(s) == s <==> NoSeparator(s) && NoUuidIn(s)
  {
    ReplaceShrinks(s);
    ReplaceFixpoint(s);
    if NoSeparator(s) && NoUuidIn(s) {
      assert MapSeparators(s) == s;
    }
  }

  // ---------------------------------------------------------------------
  // UUID texts are recognised

  predicate AllHex(t: string) {
    forall k :: 0 <= k < |t| ==> IsHexDigit(t[k])
  }

  /** Hex groups joined by optional hyphens: `dashes[i]` says whether a `-` follows `parts[i]`. */
  function Shape(parts: seq<string>, dashes: seq<bool>): string
    requires |parts| > 0 && |dashes| == |parts| - 1
    decreases |parts|
  {
    if |parts| == 1 then parts[0]
    else parts[0] + (if dashes[0] then "-" else "") + Shape(parts[1..], dashes[1..])
  }

  /** A hex text found at position `i` is a hex run there. */
  lemma HexRunOfSlice(s: string, i: nat, t: string)
    requires i + |t| <= |s| && s[i..i + |t|] == t && AllHex(t)
    ensures HexRun(s, i, |t|)
  {
    forall k | i <= k < i + |t| ensures IsHexDigit(s[k]) {
      assert s[k] == s[i..i + |t|][k - i];
    }
  }

  /** A piece of a text found at position `i` is found at the matching offset. */
  lemma SubSlice(s: string, i: nat, t: string, off: nat, u: string)
    requires i + |t| <= |s| && s[i..i + |t|] == t
    requires off + |u| <= |t| && t[off..off + |u|] == u
    ensures s[i + off..i + off + |u|] == u
  {
    forall k | 0 <= k < |u| ensures s[i + off..i + off + |u|][k] == u[k] {
      assert s[i + off + k] == s[i..i + |t|][off + k] == t[off + k] == t[off..off + |u|][k];
    }
  }

  /** A shape of several groups is its first group, an optional hyphen and the shape of the rest. */
  lemma ShapeSplit(parts: seq<string>, dashes: seq<bool>)
    requires |parts| > 1 && |dashes| == |parts| - 1 && |parts[0]| > 0 && |parts[1]| > 0
    ensures var sh := Shape(parts, dashes);
            var g := |parts[0]|;
            var sep := if dashes[0] then 1 else 0;
            var tail := Shape(parts[1..], dashes[1..]);
            && |sh| == g + sep + |tail|
            && sh[0..g] == parts[0]
            && sh[g + sep..g + sep + |tail|] == tail
            && sh[g] == (if dashes[0] then '-' else parts[1][0])
  {
    var tail := Shape(parts[1..], dashes[1..]);
    assert |parts[1..]| > 1 ==> Shape(parts[1..], dashes[1..]) == parts[1] + (if dashes[1] then "-" else "") + Shape(parts[2..], dashes[2..]);
    assert tail[0] == parts[1][0];
  }

  /** Each part is a hex text exactly as long as its group. */
  predicate GroupsFit(parts: seq<string>, groups: seq<nat>) {
    |parts| == |groups| && forall j :: 0 <= j < |groups| ==> groups[j] > 0 && |parts[j]| == groups[j] && AllHex(parts[j])
  }

  lemma GroupsFitParts(parts: seq<string>, groups: seq<nat>)
    requires GroupsFit(parts, groups) && |groups| > 1
    ensures GroupsFit(parts[1..], groups[1..])
    ensures |parts[0]| == groups[0] > 0 && |parts[1]| > 0 && AllHex(parts[0]) && AllHex(parts[1])
  {
    assert forall j :: 0 <= j < |groups| - 1 ==> parts[1..][j] == parts[j + 1] && groups[1..][j] == groups[j + 1];
  }

  /**
   * The first group of a shape found at `i` is a hex run, the character after
   * it says whether a hyphen follows, and the rest of the shape comes next.
   */
  lemma ShapeFront(s: string, i: nat, parts: seq<string>, dashes: seq<bool>)
    requires |parts| > 1 && |dashes| == |parts| - 1 && |parts[0]| > 0 && |parts[1]| > 0
    requires AllHex(parts[0]) && AllHex(parts[1])
    requires i + |Shape(parts, dashes)| <= |s| && s[i..i + |Shape(parts, dashes)|] == Shape(parts, dashes)
    ensures var g := |parts[0]|;
            var tail := Shape(parts[1..], dashes[1..]);
            var next := i + g + (if dashes[0] then 1 else 0);
            && HexRun(s, i, g)
            && (if i + g < |s| && s[i + g] == '-' then i + g + 1 else i + g) == next
            && next + |tail| <= |s| && s[next..next + |tail|] == tail
            && i + |Shape(parts, dashes)| == next + |tail|
  {
    var sh := Shape(parts, dashes);
    var g := |parts[0]|;
    ShapeSplit(parts, dashes);
    var sep := if dashes[0] then 1 else 0;
    var tail := Shape(parts[1..], dashes[1..]);
    SubSlice(s, i, sh, 0, parts[0]);
    HexRunOfSlice(s, i, parts[0]);
    assert s[i + g] == sh[g] by {
      assert s[i + g] == s[i..i + |sh|][g];
    }
    assert !dashes[0] ==> IsHexDigit(parts[1][0]);
    SubSlice(s, i, sh, g + sep, tail);
  }

  /** A text of the right shape, found at position `i`, is matched there in full. */
  lemma {:induction false} ShapeMatches(s: string, i: nat, parts: seq<string>, dashes: seq<bool>, groups: seq<nat>)
    requires |groups| > 0 && |dashes| == |groups| - 1 && GroupsFit(parts, groups)
    requires i + |Shape(parts, dashes)| <= |s| && s[i..i + |Shape(parts, dashes)|] == Shape(parts, dashes)
    ensures MatchFrom(s, i, groups) == Some(i + |Shape(parts, dashes)|)
    decreases |groups|
  {
    if |groups| > 1 {
      GroupsFitParts(parts, groups);
      ShapeFront(s, i, parts, dashes);
      var next := i + groups[0] + (if dashes[0] then 1 else 0);
      var tail := Shape(parts[1..], dashes[1..]);
      ShapeMatches(s, next, parts[1..], dashes[1..], groups[1..]);
      MatchFromNext(s, i, groups, next);
      calc {
        MatchFrom(s, i, groups);
        MatchFrom(s, next, groups[1..]);
        Some(next + |tail|);
        Some(i + |Shape(parts, dashes)|);
      }
    } else {
      ShapeMatchesOne(s, i, parts, dashes, groups);
    }
  }

  /** The base case of ShapeMatches: a single group. */
  lemma ShapeMatchesOne(s: string, i: nat, parts: seq<string>, dashes: seq<bool>, groups: seq<nat>)
    requires |groups| == 1 && dashes == [] && GroupsFit(parts, groups)
    requires i + |Shape(parts, dashes)| <= |s| && s[i..i + |Shape(parts, dashes)|] == Shape(parts, dashes)
    ensures MatchFrom(s, i, groups) == Some(i + |Shape(parts, dashes)|)
  {
    assert Shape(parts, dashes) == parts[0];
    assert |parts[0]| == groups[0] && AllHex(parts[0]);
    HexRunOfSlice(s, i, parts[0]);
    MatchFromStep(s, i, groups);
  }

  /** One unfolding of MatchFrom once the first group is known to be present. */
  lemma MatchFromStep(s: string, i: nat, groups: seq<nat>)
    requires i <= |s| && groups != [] && HexRun(s, i, groups[0])
    ensures |groups| == 1 ==> MatchFrom(s, i, groups) == Some(i + groups[0])
    ensures |groups| > 1 ==>
      var g := groups[0];
      MatchFrom(s, i, groups) == MatchFrom(s, if i + g < |s| && s[i + g] == '-' then i + g + 1 else i + g, groups[1..])
  {
  }

  /** MatchFrom moves from one group to the next, past the hyphen if there is one. */
  lemma MatchFromNext(s: string, i: nat, groups: seq<nat>, next: nat)
    requires i <= |s| && |groups| > 1 && HexRun(s, i, groups[0])
    requires next == if i + groups[0] < |s| && s[i + groups[0]] == '-' then i + groups[0] + 1 else i + groups[0]
    ensures MatchFrom(s, i, groups) == MatchFrom(s, next, groups[1..])
  {
    MatchFromStep(s, i, groups);
  }

  /** A UUID written as 32 hex digits, with a hyphen after group `i` when `dashes[i]`. */
  function UuidText(hex: string, dashes: seq<bool>): string
    requires |hex| == 32 && |dashes| == 4
  {
    Shape([hex[..8], hex[8..12], hex[12..16], hex[16..20], hex[20..]], dashes)
  }

  /** Without hyphens a UUID text is just its 32 digits. */
  lemma UuidTextPlain(hex: string)
    requires |hex| == 32
    ensures UuidText(hex, [false, false, false, false]) == hex
  {
    var parts := [hex[..8], hex[8..12], hex[12..16], hex[16..20], hex[20..]];
    var none := [false, false, false, false];
    assert Shape(parts[4..], none[4..]) == hex[20..];
    assert Shape(parts[3..], none[3..]) == hex[16..20] + hex[20..];
    assert Shape(parts[2..], none[2..]) == hex[12..16] + (hex[16..20] + hex[20..]);
    assert Shape(parts[1..], none[1..]) == hex[8..12] + (hex[12..16] + (hex[16..20] + hex[20..]));
    assert Shape(parts, none) == hex[..8] + (hex[8..12] + (hex[12..16] + (hex[16..20] + hex[20..])));
    assert hex == hex[..8] + (hex[8..12] + (hex[12..16] + (hex[16..20] + hex[20..])));
  }

  lemma UuidPartsFit(hex: string, parts: seq<string>)
    requires |hex| == 32 && AllHex(hex)
    requires parts == [hex[..8], hex[8..12], hex[12..16], hex[16..20], hex[20..]]
    ensures GroupsFit(parts, GroupSizes)
  {
  }

  lemma PrefixOfConcat(u: string, rest: string)
    ensures (u + rest)[0..|u|] == u
  {
  }

  /** Every UUID text, with or without each hyphen, is matched in full whatever follows it. */
  lemma UuidTextMatches(hex: string, dashes: seq<bool>, rest: string)
    requires |hex| == 32 && AllHex(hex) && |dashes| == 4
    ensures MatchUuid(UuidText(hex, dashes) + rest) == Some(|UuidText(hex, dashes)|)
  {
    var parts := [hex[..8], hex[8..12], hex[12..16], hex[16..20], hex[20..]];
    var u := Shape(parts, dashes);
    UuidPartsFit(hex, parts);
    PrefixOfConcat(u, rest);
    ShapeMatches(u + rest, 0, parts, dashes, GroupSizes);
  }

  // ---------------------------------------------------------------------
  // Only UUID texts are recognised

  /** A shape of several groups, taken apart into its first group, its hyphen and the rest. */
  lemma ShapeCons(p: string, parts: seq<string>, d: bool, dashes: seq<bool>)
    requires |parts| > 0 && |dashes| == |parts| - 1
    ensures Shape([p] + parts, [d] + dashes) == p + (if d then "-" else "") + Shape(parts, dashes)
  {
    assert ([p] + parts)[1..] == parts;
    assert ([d] + dashes)[1..] == dashes;
  }

  lemma GroupsFitCons(p: string, parts: seq<string>, groups: seq<nat>)
    requires |groups| > 1 && groups[0] > 0 && |p| == groups[0] && AllHex(p)
    requires GroupsFit(parts, groups[1..])
    ensures GroupsFit([p] + parts, groups)
  {
    forall j | 0 < j < |groups|
      ensures groups[j] > 0 && |([p] + parts)[j]| == groups[j] && AllHex(([p] + parts)[j])
    {
      assert ([p] + parts)[j] == parts[j - 1] && groups[j] == groups[1..][j - 1];
    }
  }

  /** A hex run at position `i` is a hex text. */
  lemma SliceOfHexRun(s: string, i: nat, g: nat)
    requires HexRun(s, i, g)
    ensures |s[i..i + g]| == g && AllHex(s[i..i + g])
  {
    var t := s[i..i + g];
    forall k | 0 <= k < g ensures IsHexDigit(t[k]) {
      assert t[k] == s[i + k];
    }
  }

  lemma SliceInThree(s: string, i: nat, j: nat, k: nat, l: nat)
    requires i <= j <= k <= l <= |s|
    ensures s[i..l] == s[i..j] + s[j..k] + s[k..l]
  {
  }

  /**
   * Conversely, whatever MatchFrom accepts is hex groups of exactly the given
   * sizes joined by optional hyphens.
   */
  lemma {:induction false} MatchFromSound(s: string, i: nat, groups: seq<nat>)
    requires i <= |s| && groups != [] && forall j :: 0 <= j < |groups| ==> groups[j] > 0
    requires MatchFrom(s, i, groups).Some?
    ensures exists parts, dashes :: |dashes| == |groups| - 1 && GroupsFit(parts, groups)
              && s[i..MatchFrom(s, i, groups).value] == Shape(parts, dashes)
    decreases |groups|
  {
    var g := groups[0];
    var m := MatchFrom(s, i, groups).value;
    assert HexRun(s, i, g);
    var p := s[i..i + g];
    SliceOfHexRun(s, i, g);
    if |groups| == 1 {
      MatchFromStep(s, i, groups);
      assert GroupsFit([p], groups);
      assert s[i..m] == Shape([p], []);
    } else {
      var next := if i + g < |s| && s[i + g] == '-' then i + g + 1 else i + g;
      MatchFromNext(s, i, groups, next);
      assert forall j :: 0 <= j < |groups[1..]| ==> groups[1..][j] == groups[j + 1];
      MatchFromSound(s, next, groups[1..]);
      var rest, restDashes :| |restDashes| == |groups| - 2 && GroupsFit(rest, groups[1..])
                              && s[next..m] == Shape(rest, restDashes);
      var d := next == i + g + 1;
      SoundStep(s, i, g, next, m, groups, rest, restDashes, d);
      assert |[d] + restDashes| == |groups| - 1 && GroupsFit([p] + rest, groups)
             && s[i..m] == Shape([p] + rest, [d] + restDashes);
    }
  }

  /** One step of MatchFromSound: the first group and its hyphen put in front of the rest. */
  lemma SoundStep(s: string, i: nat, g: nat, next: nat, m: nat, groups: seq<nat>,
                  rest: seq<string>, restDashes: seq<bool>, d: bool)
    requires |groups| > 1 && g == groups[0] > 0 && HexRun(s, i, g)
    requires next == (if i + g < |s| && s[i + g] == '-' then i + g + 1 else i + g)
    requires d == (next == i + g + 1) && next <= m <= |s|
    requires |restDashes| == |groups| - 2 && GroupsFit(rest, groups[1..])
    requires s[next..m] == Shape(rest, restDashes)
    ensures GroupsFit([s[i..i + g]] + rest, groups)
    ensures s[i..m] == Shape([s[i..i + g]] + rest, [d] + restDashes)
  {
    var p := s[i..i + g];
    SliceOfHexRun(s, i, g);
    ShapeCons(p, rest, d, restDashes);
    GroupsFitCons(p, rest, groups);
    SliceInThree(s, i, i + g, next, m);
    assert s[i + g..next] == (if d then "-" else "");
  }

  /**
   * The text starts with a UUID: five hex groups of 8, 4, 4, 4 and 12 digits,
   * each of the first four followed by an optional hyphen.
   */
  ghost predicate StartsWithUuid(s: string) {
    exists parts, dashes :: |dashes| == 4 && GroupsFit(parts, GroupSizes)
      && |Shape(parts, dashes)| <= |s| && s[..|Shape(parts, dashes)|] == Shape(parts, dashes)
  }

  /** The scanner's anchored match succeeds exactly on texts that start with a UUID. */
  lemma MatchUuidIffShape(s: string)
    ensures MatchUuid(s).Some? <==> StartsWithUuid(s)
  {
    SumOfGroupSizes();
    if MatchUuid(s).Some? {
      assert forall j :: 0 <= j < |GroupSizes| ==> GroupSizes[j] > 0;
      MatchFromSound(s, 0, GroupSizes);
      var parts, dashes :| |dashes| == 4 && GroupsFit(parts, GroupSizes)
                           && s[0..MatchUuid(s).value] == Shape(parts, dashes);
      assert s[..|Shape(parts, dashes)|] == Shape(parts, dashes);
    }
    if StartsWithUuid(s) {
      var parts, dashes :| |dashes| == 4 && GroupsFit(parts, GroupSizes)
                           && |Shape(parts, dashes)| <= |s| && s[..|Shape(parts, dashes)|] == Shape(parts, dashes);
      assert s[0..|Shape(parts, dashes)|] == Shape(parts, dashes);
      ShapeMatches(s, 0, parts, dashes, GroupSizes);
    }
  }

  /** NoUuidIn, read as the regular expression: no position starts a UUID. */
  lemma NoUuidInIffNoShape(s: string)
    ensures NoUuidIn(s) <==> forall i :: 0 <= i < |s| ==> !StartsWithUuid(s[i..])
  {
    forall i | 0 <= i < |s| ensures MatchUuid(s[i..]).Some? <==> StartsWithUuid(s[i..]) {
      MatchUuidIffShape(s[i..]);
    }
  }

  /** A path in which no position starts a UUID only has its separators mapped. */
  lemma UuidFreeOnlyMapped(s: string)
    requires forall i :: 0 <= i < |s| ==> !StartsWithUuid(s[i..])
    ensures ApplyUuidRegexPattern(s) == MapSeparators(s)
  {
    NoUuidInIffNoShape(s);
    ReplaceFixpoint(s);
  }

  // ---------------------------------------------------------------------
  // Path segments are normalised one by one

  /** A character that can be neither part of a UUID run nor a hyphen, such as `/`. */
  predicate IsBoundary(c: char) {
    !IsHexDigit(c) && c != '-'
  }

  /** What appending a boundary character and more text does to the characters and runs of `p`. */
  lemma BoundaryAppend(p: string, c: char, q: string, i: nat, g: nat)
    requires IsBoundary(c) && i <= |p|
    ensures var s := p + [c] + q;
            && (i + g <= |p| ==> HexRun(s, i, g) == HexRun(p, i, g))
            && (i + g > |p| ==> !HexRun(s, i, g) && !HexRun(p, i, g))
            && (i + g <= |p| ==>
                  (if i + g < |s| && s[i + g] == '-' then i + g + 1 else i + g)
                  == (if i + g < |p| && p[i + g] == '-' then i + g + 1 else i + g))
  {
    var s := p + [c] + q;
    assert forall k :: 0 <= k < |p| ==> s[k] == p[k];
    assert s[|p|] == c;
  }

  /** A match starting before a boundary character never reaches past it. */
  lemma {:induction false} MatchStopsAtBoundary(p: string, c: char, q: string, i: nat, groups: seq<nat>)
    requires IsBoundary(c) && i <= |p| && groups != []
    ensures MatchFrom(p + [c] + q, i, groups) == MatchFrom(p, i, groups)
    decreases |groups|
  {
    var s := p + [c] + q;
    var g := groups[0];
    BoundaryAppend(p, c, q, i, g);
    if HexRun(p, i, g) && i + g <= |p| {
      if |groups| > 1 {
        var next := if i + g < |p| && p[i + g] == '-' then i + g + 1 else i + g;
        MatchFromNext(s, i, groups, next);
        MatchFromNext(p, i, groups, next);
        MatchStopsAtBoundary(p, c, q, next, groups[1..]);
      } else {
        MatchFromStep(s, i, groups);
        MatchFromStep(p, i, groups);
      }
    }
  }

  lemma MatchUuidStopsAtBoundary(p: string, c: char, q: string)
    requires IsBoundary(c)
    ensures MatchUuid(p + [c] + q) == MatchUuid(p)
  {
    MatchStopsAtBoundary(p, c, q, 0, GroupSizes);
  }

  lemma ReplaceAtMatch(s: string, n: nat)
    requires s != [] && MatchUuid(s) == Some(n)
    ensures ReplaceUuids(s) == Placeholder + ReplaceUuids(s[n..])
  {
  }

  lemma ReplaceAtNoMatch(s: string)
    requires s != [] && MatchUuid(s).None?
    ensures ReplaceUuids(s) == [s[0]] + ReplaceUuids(s[1..])
  {
  }

  lemma Reassociate(a: string, b: string, c: string, d: string)
    ensures a + (b + c + d) == (a + b) + c + d
  {
  }

  lemma DropFromFront(p: string, c: char, q: string, n: nat)
    requires n <= |p|
    ensures (p + [c] + q)[n..] == p[n..] + [c] + q
    ensures n < |p| ==> (p + [c] + q)[n] == p[n]
  {
  }

  /** One step of ReplaceSplitsAtBoundary: a match at the front of `p`. */
  lemma SplitAfterMatch(p: string, c: char, q: string, n: nat)
    requires p != [] && n <= |p| && MatchUuid(p) == Some(n) && MatchUuid(p + [c] + q) == Some(n)
    requires ReplaceUuids(p[n..] + [c] + q) == ReplaceUuids(p[n..]) + [c] + ReplaceUuids(q)
    ensures ReplaceUuids(p + [c] + q) == ReplaceUuids(p) + [c] + ReplaceUuids(q)
  {
    var s := p + [c] + q;
    DropFromFront(p, c, q, n);
    ReplaceAtMatch(s, n);
    ReplaceAtMatch(p, n);
    Reassociate(Placeholder, ReplaceUuids(p[n..]), [c], ReplaceUuids(q));
  }

  /** One step of ReplaceSplitsAtBoundary: no match at the front of `p`. */
  lemma SplitAfterLiteral(p: string, c: char, q: string)
    requires p != [] && MatchUuid(p).None? && MatchUuid(p + [c] + q).None?
    requires ReplaceUuids(p[1..] + [c] + q) == ReplaceUuids(p[1..]) + [c] + ReplaceUuids(q)
    ensures ReplaceUuids(p + [c] + q) == ReplaceUuids(p) + [c] + ReplaceUuids(q)
  {
    var s := p + [c] + q;
    DropFromFront(p, c, q, 1);
    DropFromFront(p, c, q, 0);
    ReplaceAtNoMatch(s);
    ReplaceAtNoMatch(p);
    Reassociate([p[0]], ReplaceUuids(p[1..]), [c], ReplaceUuids(q));
  }

  /** Replacement never crosses a boundary character: it works segment by segment. */
  lemma {:induction false} ReplaceSplitsAtBoundary(p: string, c: char, q: string)
    requires IsBoundary(c)
    ensures ReplaceUuids(p + [c] + q) == ReplaceUuids(p) + [c] + ReplaceUuids(q)
    decreases |p|
  {
    MatchUuidStopsAtBoundary(p, c, q);
    if p == [] {
      assert p + [c] + q == [c] + q;
      ReplaceAtNoMatch([c] + q);
      assert ([c] + q)[1..] == q;
    } else {
      match MatchUuid(p)
      case Some(n) =>
        ReplaceSplitsAtBoundary(p[n..], c, q);
        SplitAfterMatch(p, c, q, n);
      case None =>
        ReplaceSplitsAtBoundary(p[1..], c, q);
        SplitAfterLiteral(p, c, q);
    }
  }

  /** No match of the pattern starts inside `p` when `t` follows it. */
  predicate NoMatchIn(p: string, t: string) {
    forall k :: 0 <= k < |p| ==> MatchUuid((p + t)[k..]).None?
  }

  /** Dropping the first character of `p` keeps it free of match starts. */
  lemma NoMatchInTail(p: string, t: string)
    requires p != [] && NoMatchIn(p, t)
    ensures MatchUuid(p + t).None? && NoMatchIn(p[1..], t)
  {
    assert (p + t)[0..] == p + t;
    forall k | 0 <= k < |p[1..]|
      ensures MatchUuid((p[1..] + t)[k..]).None?
    {
      assert (p[1..] + t)[k..] == (p + t)[k + 1..];
    }
  }

  /** Replacement copies a first character at which no match starts. */
  lemma FirstMatchStep(p: string, t: string)
    requires p != [] && MatchUuid(p + t).None?
    ensures ReplaceUuids(p + t) == [p[0]] + ReplaceUuids(p[1..] + t)
  {
    ReplaceAtNoMatch(p + t);
    assert (p + t)[1..] == p[1..] + t;
  }

  /**
   * The scan is leftmost-first: text before the first match is copied as it
   * is, that match becomes the placeholder, and the scan resumes right after
   * it.
   */
  lemma {:induction false} ReplaceAtFirstMatch(p: string, t: string, n: nat)
    requires MatchUuid(t) == Some(n) && NoMatchIn(p, t)
    ensures n <= |t| && ReplaceUuids(p + t) == p + Placeholder + ReplaceUuids(t[n..])
    decreases |p|
  {
    if p == [] {
      assert p + t == t;
      ReplaceAtMatch(t, n);
    } else {
      var rest := ReplaceUuids(t[n..]);
      NoMatchInTail(p, t);
      ReplaceAtFirstMatch(p[1..], t, n);
      assert ReplaceUuids(p[1..] + t) == p[1..] + Placeholder + rest;
      FirstMatchStep(p, t);
      assert ReplaceUuids(p + t) == [p[0]] + (p[1..] + Placeholder + rest);
      Reattach(p, Placeholder, rest);
    }
  }

  /**
   * A UUID after a character that is not a hex digit, such as a hyphen, is
   * replaced and that character kept.
   */
  lemma UuidAfterNonHex(c: char, hex: string, dashes: seq<bool>, q: string)
    requires !IsHexDigit(c) && |hex| == 32 && AllHex(hex) && |dashes| == 4
    ensures ReplaceUuids([c] + UuidText(hex, dashes) + q) == [c] + Placeholder + ReplaceUuids(q)
  {
    var u := UuidText(hex, dashes);
    var t := u + q;
    UuidTextMatches(hex, dashes, q);
    assert ([c] + t)[0..] == [c] + t && ([c] + t)[0] == c;
    assert !HexRun([c] + t, 0, GroupSizes[0]);
    assert NoMatchIn([c], t);
    ReplaceAtFirstMatch([c], t, |u|);
    assert t[|u|..] == q;
    assert [c] + u + q == [c] + t;
  }

  lemma Reattach(p: string, a: string, b: string)
    requires p != []
    ensures [p[0]] + (p[1..] + a + b) == p + a + b
  {
    assert p == [p[0]] + p[1..];
  }

  lemma MapSeparatorsConcat(a: string, b: string)
    ensures MapSeparators(a + b) == MapSeparators(a) + MapSeparators(b)
  {
    assert forall i :: 0 <= i < |a + b| ==> MapSeparators(a + b)[i] == (MapSeparators(a) + MapSeparators(b))[i];
  }

  /** A text that starts with a UUID loses that UUID to the placeholder, whatever follows. */
  lemma ReplaceLeadingUuid(hex: string, dashes: seq<bool>, q: string)
    requires |hex| == 32 && AllHex(hex) && |dashes| == 4
    ensures ReplaceUuids(UuidText(hex, dashes) + q) == Placeholder + ReplaceUuids(q)
  {
    var u := UuidText(hex, dashes);
    UuidTextMatches(hex, dashes, q);
    assert (u + q)[|u|..] == q;
  }

  /**
   * A path segment holding a UUID, hyphenated or not, becomes `UUID`
   * whatever follows it, and the rest of the path is normalised on its own.
   */
  lemma UuidSegmentNormalized(p: string, hex: string, dashes: seq<bool>, q: string)
    requires |hex| == 32 && AllHex(hex) && |dashes| == 4
    ensures ApplyUuidRegexPattern(p + "/" + UuidText(hex, dashes) + q)
         == ApplyUuidRegexPattern(p) + "_" + Placeholder + ApplyUuidRegexPattern(q)
  {
    var u := UuidText(hex, dashes);
    var rp, rq := ReplaceUuids(p), ReplaceUuids(q);
    Regroup(p, ['/'], u, q);
    ReplaceSplitsAtBoundary(p, '/', u + q);
    ReplaceLeadingUuid(hex, dashes, q);
    PlaceholderIsPlain();
    MapAroundSlash(rp, Placeholder, rq);
    Regroup(MapSeparators(rp), ['_'], Placeholder, MapSeparators(rq));
  }

  /** The placeholder holds no separator and no hex run. */
  lemma PlaceholderIsPlain()
    ensures NoSeparator(Placeholder) && |Placeholder| == 4 && IsHexDigit(Placeholder[3])
  {
    assert Placeholder == ['U', 'U', 'I', 'D'];
  }

  lemma Regroup(a: string, b: string, c: string, d: string)
    ensures a + b + c + d == a + b + (c + d)
  {
  }

  /** Mapping separators around a slash that precedes a separator-free text. */
  lemma MapAroundSlash(a: string, x: string, b: string)
    requires NoSeparator(x)
    ensures MapSeparators(a + ['/'] + (x + b)) == MapSeparators(a) + ['_'] + (x + MapSeparators(b))
  {
    MapSeparatorsConcat(a + ['/'], x + b);
    MapSeparatorsConcat(a, ['/']);
    MapSeparatorsConcat(x, b);
    assert MapSeparators(x) == x;
  }

  /**
   * Normalising twice is not the same as normalising once: the `D` of an
   * inserted `UUID` can start a new 32-digit run with the hex digits after it.
   */
  lemma NormalizeNotIdempotent()
    ensures var s := seq(63, _ => '0');
            ApplyUuidRegexPattern(ApplyUuidRegexPattern(s)) != ApplyUuidRegexPattern(s)
  {
    var s := seq(63, _ => '0');
    var zeros := seq(31, _ => '0');
    ZerosOnce(s, zeros);
    var once := Placeholder + zeros;
    PlaceholderIsPlain();
    PlainConcat(Placeholder, zeros);
    ZerosOnceHasUuid(once);
    ReplaceShrinks(once);
  }

  /** Sixty-three zeros: the first 32 are replaced, the other 31 stay. */
  lemma ZerosOnce(s: string, zeros: string)
    requires s == seq(63, _ => '0') && zeros == seq(31, _ => '0')
    ensures AllHex(zeros) && ReplaceUuids(s) == Placeholder + zeros
  {
    var none := [false, false, false, false];
    var hex := s[..32];
    assert AllHex(hex) && AllHex(zeros);
    UuidTextPlain(hex);
    assert s == UuidText(hex, none) + zeros;
    ReplaceLeadingUuid(hex, none, zeros);
    ShortHasNoUuid(zeros);
    ReplaceFixpoint(zeros);
  }

  /** The last letter of the placeholder and 31 hex digits make a new match. */
  lemma ZerosOnceHasUuid(once: string)
    requires |once| == 35 && AllHex(once[3..])
    ensures !NoUuidIn(once)
  {
    var none := [false, false, false, false];
    var run := once[3..];
    UuidTextPlain(run);
    UuidTextMatches(run, none, []);
    assert run + [] == run;
  }

  /** Gluing hex digits after the placeholder: no separator appears, and its `D` starts a hex run. */
  lemma PlainConcat(x: string, zeros: string)
    requires |x| == 4 && NoSeparator(x) && IsHexDigit(x[3]) && AllHex(zeros)
    ensures MapSeparators(x + zeros) == x + zeros
    ensures AllHex((x + zeros)[3..])
  {
  }
}
