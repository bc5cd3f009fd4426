/**
 * The cross-origin resource sharing response filter: an allow-list of
 * origins derived once from configuration, and a filter that sets four
 * response headers when the request's Origin is on that list.
 */
module CorsFilter {
  import opened Wrappers
  import JavaText

  /** A response's headers: each header name maps to its list of values. */
  type Headers = map<string, seq<string>>

  const ALLOW_ORIGIN: string := "Access-Control-Allow-Origin"
  const ALLOW_METHODS: string := "Access-Control-Allow-Methods"
  const ALLOW_HEADERS: string := "Access-Control-Allow-Headers"
  const VARY: string := "Vary"

  /** The only header names the filter ever writes. */
  const CorsHeaderNames: set<string> := {ALLOW_ORIGIN, ALLOW_METHODS, ALLOW_HEADERS, VARY}

  // ---------------------------------------------------------------------
  // Splitting the configured origins at "\s*,\s*" (Java's String.split)
  // ---------------------------------------------------------------------

  /** The characters of Java's regular-expression class \s: space, tab, line feed, vertical tab, form feed, carriage return. */
  predicate IsSpace(c: char)
  {
    c == ' ' || 9 <= c as int <= 13
  }

  /** t does not start with whitespace. */
  predicate StartsClean(t: string)
  {
    |t| == 0 || !IsSpace(t[0])
  }

  /** t does not end with whitespace. */
  predicate EndsClean(t: string)
  {
    |t| == 0 || !IsSpace(t[|t| - 1])
  }

  /** s without its leading whitespace. */
  function TrimLeading(s: string): (r: string)
    ensures |r| <= |s| && r == s[|s| - |r|..]
    ensures forall i :: 0 <= i < |s| - |r| ==> IsSpace(s[i])
    ensures StartsClean(r)
    ensures ',' !in s ==> ',' !in r
  {
    if |s| > 0 && IsSpace(s[0]) then TrimLeading(s[1..]) else s
  }

  /** s without its trailing whitespace. */
  function TrimTrailing(s: string): (r: string)
    ensures |r| <= |s| && r == s[..|r|]
    ensures forall i :: |r| <= i < |s| ==> IsSpace(s[i])
    ensures EndsClean(r)
    ensures ',' !in s ==> ',' !in r
  {
    if |s| > 0 && IsSpace(s[|s| - 1]) then TrimTrailing(s[..|s| - 1]) else s
  }

  /** Every character of t is whitespace. */
  predicate AllSpace(t: string)
  {
    forall i :: 0 <= i < |t| ==> IsSpace(t[i])
  }

  /**
   * piece is core with whitespace before it (only when the piece follows a
   * comma) and after it (only when the piece precedes a comma), core
   * starting at index front of piece.
   */
  predicate PaddedAt(piece: string, core: string, front: nat, afterComma: bool, beforeComma: bool)
  {
    && front + |core| <= |piece|
    && piece[front..front + |core|] == core
    && AllSpace(piece[..front])
    && AllSpace(piece[front + |core|..])
    && (!afterComma ==> front == 0)
    && (!beforeComma ==> front + |core| == |piece|)
  }

  /**
   * core is what is left of piece once the whitespace next to its commas is
   * absorbed: piece is core with whitespace around it, on the sides next to
   * a comma only, and core has none left on those sides.
   */
  predicate IsCore(piece: string, core: string, afterComma: bool, beforeComma: bool)
  {
    && (afterComma ==> StartsClean(core))
    && (beforeComma ==> EndsClean(core))
    && exists front: nat :: front <= |piece| && PaddedAt(piece, core, front, afterComma, beforeComma)
  }

  /** Cutting whitespace off the front of piece, then off the back, leaves a padded core. */
  lemma PaddedByTrims(piece: string, a: string, b: string, afterComma: bool, beforeComma: bool)
    requires |a| <= |piece| && a == piece[|piece| - |a|..]
    requires forall i :: 0 <= i < |piece| - |a| ==> IsSpace(piece[i])
    requires !afterComma ==> a == piece
    requires |b| <= |a| && b == a[..|b|]
    requires forall i :: |b| <= i < |a| ==> IsSpace(a[i])
    requires !beforeComma ==> b == a
    ensures exists front: nat :: front <= |piece| && PaddedAt(piece, b, front, afterComma, beforeComma)
  {
    var front := |piece| - |a|;
    assert piece[front..front + |b|] == b;
    assert piece[front + |b|..] == a[|b|..];
    assert PaddedAt(piece, b, front, afterComma, beforeComma);
  }

  /** A piece whose core is empty is whitespace only. */
  lemma PaddedEmpty(piece: string, afterComma: bool, beforeComma: bool)
    requires IsCore(piece, "", afterComma, beforeComma)
    ensures AllSpace(piece)
  {
    var front: nat :| front <= |piece| && PaddedAt(piece, "", front, afterComma, beforeComma);
    assert piece == piece[..front] + piece[front..];
  }

  /**
   * A piece after the separator matches have absorbed the whitespace beside
   * its commas: whitespace after a preceding comma and before a following one.
   */
  function Absorb(piece: string, afterComma: bool, beforeComma: bool): (r: string)
    ensures ',' !in piece ==> ',' !in r
    ensures afterComma ==> StartsClean(r)
    ensures beforeComma ==> EndsClean(r)
    ensures IsCore(piece, r, afterComma, beforeComma)
  {
    var a := if afterComma then TrimLeading(piece) else piece;
    var b := if beforeComma then TrimTrailing(a) else a;
    PaddedByTrims(piece, a, b, afterComma, beforeComma);
    b
  }

  /**
   * Pieces as the separator matches leave them: none holds a comma, none but
   * the first starts with whitespace and none but the last ends with it.
   */
  predicate CleanPieces(pieces: seq<string>)
  {
    forall i :: 0 <= i < |pieces| ==>
      && ',' !in pieces[i]
      && (i > 0 ==> StartsClean(pieces[i]))
      && (i < |pieces| - 1 ==> EndsClean(pieces[i]))
  }

  /**
   * The first |r| pieces have r's tokens as their cores, and every piece
   * after them is whitespace only.
   */
  predicate TokensOf(pieces: seq<string>, r: seq<string>)
  {
    && |r| <= |pieces|
    && (forall i :: 0 <= i < |r| ==> IsCore(pieces[i], r[i], i > 0, i < |pieces| - 1))
    && (forall i :: |r| <= i < |pieces| ==> AllSpace(pieces[i]))
  }

  /** Every piece with the whitespace next to its commas absorbed. */
  function AbsorbAll(pieces: seq<string>): (r: seq<string>)
    requires forall i :: 0 <= i < |pieces| ==> ',' !in pieces[i]
    ensures |r| == |pieces|
    ensures CleanPieces(r)
    ensures forall i :: 0 <= i < |r| ==> IsCore(pieces[i], r[i], i > 0, i < |pieces| - 1)
  {
    var r := seq(|pieces|, i requires 0 <= i < |pieces| => Absorb(pieces[i], i > 0, i < |pieces| - 1));
    forall i | 0 <= i < |r|
      ensures ',' !in r[i]
      ensures i > 0 ==> StartsClean(r[i])
      ensures i < |r| - 1 ==> EndsClean(r[i])
      ensures IsCore(pieces[i], r[i], i > 0, i < |pieces| - 1)
    {
      assert r[i] == Absorb(pieces[i], i > 0, i < |pieces| - 1);
    }
    r
  }

  /** xs without its trailing empty strings. */
  function DropTrailingEmpty(xs: seq<string>): (r: seq<string>)
    ensures |r| <= |xs|
    ensures forall i :: 0 <= i < |r| ==> r[i] == xs[i]
    ensures forall i :: |r| <= i < |xs| ==> |xs[i]| == 0
    ensures |r| == 0 || |r[|r| - 1]| > 0
  {
    if |xs| == 0 || |xs[|xs| - 1]| > 0 then xs else DropTrailingEmpty(xs[..|xs| - 1])
  }

  /** A list that agrees with clean pieces on its indices is clean. */
  lemma CleanPrefix(xs: seq<string>, r: seq<string>)
    requires CleanPieces(xs)
    requires |r| <= |xs|
    requires forall i :: 0 <= i < |r| ==> r[i] == xs[i]
    ensures CleanPieces(r)
  {
  }

  /**
   * Absorbing every piece and then dropping the trailing empty tokens leaves
   * the tokens of the pieces: the dropped pieces were whitespace only.
   */
  lemma TokensOfPrefix(pieces: seq<string>, absorbed: seq<string>, r: seq<string>)
    requires |absorbed| == |pieces|
    requires forall i :: 0 <= i < |absorbed| ==> IsCore(pieces[i], absorbed[i], i > 0, i < |pieces| - 1)
    requires |r| <= |absorbed|
    requires forall i :: 0 <= i < |r| ==> r[i] == absorbed[i]
    requires forall i :: |r| <= i < |absorbed| ==> |absorbed[i]| == 0
    ensures TokensOf(pieces, r)
  {
    forall i | |r| <= i < |pieces| ensures AllSpace(pieces[i]) {
      assert absorbed[i] == "";
      PaddedEmpty(pieces[i], i > 0, i < |pieces| - 1);
    }
  }

  /**
   * The comma-free pieces of a string that holds a comma, as the separator
   * matches leave them: whitespace next to each comma absorbed, trailing
   * empty pieces dropped.
   */
  function Tokens(pieces: seq<string>): (r: seq<string>)
    requires forall i :: 0 <= i < |pieces| ==> ',' !in pieces[i]
    ensures |r| <= |pieces|
    ensures CleanPieces(r)
    ensures |r| == 0 || |r[|r| - 1]| > 0
    ensures TokensOf(pieces, r)
  {
    var absorbed := AbsorbAll(pieces);
    var r := DropTrailingEmpty(absorbed);
    CleanPrefix(absorbed, r);
    TokensOfPrefix(pieces, absorbed, r);
    r
  }

  /**
   * Java's s.split("\\s*,\\s*"): without a comma the whole string; otherwise
   * the pieces between the commas, with the whitespace next to each comma
   * absorbed into the separator and trailing empty pieces dropped. Each token
   * is its comma-separated piece less the whitespace next to the commas, and
   * no token starts or ends with whitespace next to a comma, so the absorbed
   * whitespace is the whole run there.
   */
  function SplitAtCommas(s: string): (r: seq<string>)
    ensures ',' !in s ==> r == [s]
    ensures CleanPieces(r)
    ensures ',' in s ==> |r| == 0 || |r[|r| - 1]| > 0
    ensures ',' in s ==> TokensOf(JavaText.Split(s, ','), r)
  {
    if ',' !in s then [s] else Tokens(JavaText.Split(s, ','))
  }

  /** An all-whitespace piece next to a comma has the empty core. */
  lemma SpaceCore(piece: string, afterComma: bool, beforeComma: bool)
    requires AllSpace(piece)
    requires afterComma || beforeComma
    ensures IsCore(piece, "", afterComma, beforeComma)
  {
    var front := if afterComma then |piece| else 0;
    assert PaddedAt(piece, "", front, afterComma, beforeComma);
  }

  /** A core whose piece also has the empty core is itself empty. */
  lemma EmptyCoreOnly(piece: string, core: string, afterComma: bool, beforeComma: bool)
    requires IsCore(piece, "", afterComma, beforeComma)
    requires IsCore(piece, core, afterComma, beforeComma)
    ensures core == ""
  {
    PaddedEmpty(piece, afterComma, beforeComma);
    var front: nat :| front <= |piece| && PaddedAt(piece, core, front, afterComma, beforeComma);
    forall i | 0 <= i < |core| ensures IsSpace(core[i]) {
      assert core[i] == piece[front + i];
    }
  }

  /** Two non-empty cores of one piece start at the same index. */
  lemma CoreFrontUnique(piece: string, c1: string, c2: string, f1: nat, f2: nat,
                        afterComma: bool, beforeComma: bool)
    requires |c1| > 0 && |c2| > 0
    requires PaddedAt(piece, c1, f1, afterComma, beforeComma) && (afterComma ==> StartsClean(c1))
    requires PaddedAt(piece, c2, f2, afterComma, beforeComma) && (afterComma ==> StartsClean(c2))
    ensures f1 == f2
  {
    if afterComma {
      assert piece[f1] == c1[0] && piece[f2] == c2[0];
      assert forall j :: 0 <= j < f1 ==> piece[..f1][j] == piece[j];
      assert forall j :: 0 <= j < f2 ==> piece[..f2][j] == piece[j];
    }
  }

  /** Two non-empty cores of one piece end at the same index. */
  lemma CoreEndUnique(piece: string, c1: string, c2: string, f1: nat, f2: nat,
                      afterComma: bool, beforeComma: bool)
    requires |c1| > 0 && |c2| > 0
    requires PaddedAt(piece, c1, f1, afterComma, beforeComma) && (beforeComma ==> EndsClean(c1))
    requires PaddedAt(piece, c2, f2, afterComma, beforeComma) && (beforeComma ==> EndsClean(c2))
    ensures f1 + |c1| == f2 + |c2|
  {
    if beforeComma {
      var e1, e2 := f1 + |c1|, f2 + |c2|;
      assert piece[e1 - 1] == c1[|c1| - 1] && piece[e2 - 1] == c2[|c2| - 1];
      assert forall j :: e1 <= j < |piece| ==> piece[e1..][j - e1] == piece[j];
      assert forall j :: e2 <= j < |piece| ==> piece[e2..][j - e2] == piece[j];
    }
  }

  /** Each piece has one core only. */
  lemma CoreUnique(piece: string, c1: string, c2: string, afterComma: bool, beforeComma: bool)
    requires IsCore(piece, c1, afterComma, beforeComma)
    requires IsCore(piece, c2, afterComma, beforeComma)
    ensures c1 == c2
  {
    if |c1| == 0 {
      EmptyCoreOnly(piece, c2, afterComma, beforeComma);
    } else if |c2| == 0 {
      EmptyCoreOnly(piece, c1, afterComma, beforeComma);
    } else {
      var f1: nat :| f1 <= |piece| && PaddedAt(piece, c1, f1, afterComma, beforeComma);
      var f2: nat :| f2 <= |piece| && PaddedAt(piece, c2, f2, afterComma, beforeComma);
      CoreFrontUnique(piece, c1, c2, f1, f2, afterComma, beforeComma);
      CoreEndUnique(piece, c1, c2, f1, f2, afterComma, beforeComma);
    }
  }

  /** Of two token lists of the same pieces, each with a non-empty last token, neither is longer. */
  lemma TokensNoLonger(pieces: seq<string>, r1: seq<string>, r2: seq<string>)
    requires |pieces| >= 2
    requires TokensOf(pieces, r1) && TokensOf(pieces, r2)
    requires |r2| == 0 || |r2[|r2| - 1]| > 0
    ensures |r2| <= |r1|
  {
    if |r1| < |r2| {
      var k := |r2| - 1;
      SpaceCore(pieces[k], k > 0, k < |pieces| - 1);
      EmptyCoreOnly(pieces[k], r2[k], k > 0, k < |pieces| - 1);
    }
  }

  /**
   * The tokens of a list of two or more pieces are determined: one list of
   * tokens only has a non-empty last token, or none at all.
   */
  lemma TokensUnique(pieces: seq<string>, r1: seq<string>, r2: seq<string>)
    requires |pieces| >= 2
    requires TokensOf(pieces, r1) && TokensOf(pieces, r2)
    requires |r1| == 0 || |r1[|r1| - 1]| > 0
    requires |r2| == 0 || |r2[|r2| - 1]| > 0
    ensures r1 == r2
  {
    TokensNoLonger(pieces, r1, r2);
    TokensNoLonger(pieces, r2, r1);
    forall i | 0 <= i < |r1| ensures r1[i] == r2[i] {
      CoreUnique(pieces[i], r1[i], r2[i], i > 0, i < |pieces| - 1);
    }
  }

  /**
   * The contract of SplitAtCommas pins its result: for a string with a comma,
   * any list whose tokens are the cores of the comma-separated pieces, with
   * only whitespace-only pieces after them and a non-empty last token, is
   * the split.
   */
  lemma SplitAtCommasUnique(s: string, r: seq<string>)
    requires ',' in s
    requires TokensOf(JavaText.Split(s, ','), r)
    requires |r| == 0 || |r[|r| - 1]| > 0
    ensures r == SplitAtCommas(s)
  {
    TokensUnique(JavaText.Split(s, ','), r, SplitAtCommas(s));
  }

  /** Whitespace before and after a core, on the sides next to a comma only, leaves that core. */
  lemma CoreOfPadding(lead: string, core: string, trail: string, afterComma: bool, beforeComma: bool)
    requires AllSpace(lead) && AllSpace(trail)
    requires !afterComma ==> lead == ""
    requires !beforeComma ==> trail == ""
    requires afterComma ==> StartsClean(core)
    requires beforeComma ==> EndsClean(core)
    ensures IsCore(lead + core + trail, core, afterComma, beforeComma)
  {
    var piece := lead + core + trail;
    assert piece[..|lead|] == lead;
    assert piece[|lead|..|lead| + |core|] == core;
    assert piece[|lead| + |core|..] == trail;
    assert PaddedAt(piece, core, |lead|, afterComma, beforeComma);
  }

  /**
   * The comma-separated pieces of origins written with whitespace around
   * their commas: origin i has after[i] before it when a comma precedes it,
   * and before[i] after it when a comma follows it.
   */
  function Spaced(origins: seq<string>, after: seq<string>, before: seq<string>): (pieces: seq<string>)
    requires |after| == |before| == |origins|
    ensures |pieces| == |origins|
  {
    seq(|origins|, i requires 0 <= i < |origins| =>
      (if i > 0 then after[i] else "") + origins[i] + (if i < |origins| - 1 then before[i] else ""))
  }

  /** One piece of a spaced join holds no comma and has its origin as its core. */
  lemma SpacedPiece(origins: seq<string>, after: seq<string>, before: seq<string>, i: nat)
    requires CleanPieces(origins)
    requires |after| == |before| == |origins|
    requires forall j :: 0 <= j < |origins| ==> AllSpace(after[j]) && AllSpace(before[j])
    requires i < |origins|
    ensures ',' !in Spaced(origins, after, before)[i]
    ensures IsCore(Spaced(origins, after, before)[i], origins[i], i > 0, i < |origins| - 1)
  {
    var lead := if i > 0 then after[i] else "";
    var trail := if i < |origins| - 1 then before[i] else "";
    assert Spaced(origins, after, before)[i] == lead + origins[i] + trail;
    CoreOfPadding(lead, origins[i], trail, i > 0, i < |origins| - 1);
    assert ',' !in lead && ',' !in trail by {
      assert !IsSpace(',');
    }
  }

  /**
   * Round trip with whitespace: origins joined by commas with any whitespace
   * on either side of each comma split back into the same list, under the
   * conditions of SplitAtCommasOfJoin.
   */
  lemma SplitAtCommasOfSpacedJoin(origins: seq<string>, after: seq<string>, before: seq<string>)
    requires |origins| >= 1
    requires CleanPieces(origins)
    requires |origins[|origins| - 1]| > 0
    requires |after| == |before| == |origins|
    requires forall i :: 0 <= i < |origins| ==> AllSpace(after[i]) && AllSpace(before[i])
    ensures SplitAtCommas(JavaText.Join(Spaced(origins, after, before), ',')) == origins
  {
    var pieces := Spaced(origins, after, before);
    forall i | 0 <= i < |pieces|
      ensures ',' !in pieces[i]
      ensures IsCore(pieces[i], origins[i], i > 0, i < |pieces| - 1)
    {
      SpacedPiece(origins, after, before, i);
    }
    if |pieces| == 1 {
      assert JavaText.Join(pieces, ',') == origins[0];
    } else {
      SplitOfCoresJoin(pieces, origins);
    }
  }

  /**
   * Two or more comma-free pieces joined by commas split into their cores,
   * when the last core is not empty.
   */
  lemma SplitOfCoresJoin(pieces: seq<string>, origins: seq<string>)
    requires |pieces| == |origins| >= 2
    requires forall i :: 0 <= i < |pieces| ==> ',' !in pieces[i]
    requires forall i :: 0 <= i < |pieces| ==> IsCore(pieces[i], origins[i], i > 0, i < |pieces| - 1)
    requires |origins[|origins| - 1]| > 0
    ensures SplitAtCommas(JavaText.Join(pieces, ',')) == origins
  {
    var s := JavaText.Join(pieces, ',');
    JavaText.SplitOfJoin(pieces, ',');
    assert s == pieces[0] + [','] + JavaText.Join(pieces[1..], ',');
    assert s[|pieces[0]|] == ',';
    assert TokensOf(pieces, origins);
    SplitAtCommasUnique(s, origins);
  }

  /**
   * Round trip: origins joined by commas split back into the same list,
   * provided none holds a comma, none but the first starts with whitespace,
   * none but the last ends with whitespace, and the last is not empty. It is
   * the case of SplitAtCommasOfSpacedJoin with no whitespace beside the commas.
   */
  lemma SplitAtCommasOfJoin(origins: seq<string>)
    requires |origins| >= 1
    requires CleanPieces(origins)
    requires |origins[|origins| - 1]| > 0
    ensures SplitAtCommas(JavaText.Join(origins, ',')) == origins
  {
    JavaText.SplitOfJoin(origins, ',');
    if ',' in JavaText.Join(origins, ',') {
      TokensOfClean(origins);
    }
  }

  /** Clean pieces with a non-empty last piece are their own tokens. */
  lemma TokensOfClean(pieces: seq<string>)
    requires CleanPieces(pieces)
    requires |pieces| == 0 || |pieces[|pieces| - 1]| > 0
    ensures Tokens(pieces) == pieces
  {
    AbsorbAllOfClean(pieces);
  }

  /** Absorbing leaves clean pieces as they are. */
  lemma AbsorbAllOfClean(pieces: seq<string>)
    requires CleanPieces(pieces)
    ensures AbsorbAll(pieces) == pieces
  {
    var absorbed := AbsorbAll(pieces);
    forall i | 0 <= i < |pieces| ensures absorbed[i] == pieces[i] {
      AbsorbClean(pieces[i], i > 0, i < |pieces| - 1);
    }
  }

  /** Absorbing leaves a piece alone that has no whitespace to give up. */
  lemma AbsorbClean(piece: string, afterComma: bool, beforeComma: bool)
    requires afterComma ==> StartsClean(piece)
    requires beforeComma ==> EndsClean(piece)
    ensures Absorb(piece, afterComma, beforeComma) == piece
  {
  }


  // ---------------------------------------------------------------------
  // The allow-list and the filter
  // ---------------------------------------------------------------------

  /**
   * The allowed origins derived from the configured origins string: no list
   * when the setting is missing or empty, otherwise the string split at commas.
   */
  function ParseAllowList(config: Option<string>): (list: Option<seq<string>>)
    ensures list.None? <==> config.None? || config.value == ""
    ensures list.Some? ==> forall i :: 0 <= i < |list.value| ==> ',' !in list.value[i]
    ensures list.Some? ==> list.value == SplitAtCommas(config.value)
    ensures list.Some? && ',' !in config.value ==> list.value == [config.value]
  {
    if config.Some? && config.value != "" then Some(SplitAtCommas(config.value)) else None
  }

  /** The request's Origin is present and is an element of the allow-list. */
  predicate Allowed(allowList: Option<seq<string>>, origin: Option<string>)
  {
    allowList.Some? && origin.Some? && origin.value in allowList.value
  }

  /** The response headers after the filter has run. */
  function Filtered(allowList: Option<seq<string>>, methods: string, headers: string,
                    origin: Option<string>, h: Headers): (r: Headers)
    ensures !Allowed(allowList, origin) ==> r == h
    ensures Allowed(allowList, origin) ==>
      && r.Keys == h.Keys + CorsHeaderNames
      && r[ALLOW_ORIGIN] == [origin.value]
      && r[ALLOW_METHODS] == [methods]
      && r[ALLOW_HEADERS] == [headers]
      && r[VARY] == ["Origin"]
    ensures forall name :: name in h && name !in CorsHeaderNames ==> name in r && r[name] == h[name]
    ensures forall name :: name in r && name !in CorsHeaderNames ==> name in h
  {
    if Allowed(allowList, origin) then
      h[ALLOW_ORIGIN := [origin.value]][ALLOW_METHODS := [methods]][ALLOW_HEADERS := [headers]][VARY := ["Origin"]]
    else
      h
  }

  /** With no origins configured, the filter never changes a response. */
  lemma UnconfiguredNeverChanges(config: Option<string>, methods: string, headers: string,
                                 origin: Option<string>, h: Headers)
    requires config.None? || config.value == ""
    ensures Filtered(ParseAllowList(config), methods, headers, origin, h) == h
  {
  }

  /** Running the filter a second time on the same request and response changes nothing more. */
  lemma FilteredIdempotent(allowList: Option<seq<string>>, methods: string, headers: string,
                           origin: Option<string>, h: Headers)
    ensures Filtered(allowList, methods, headers, origin, Filtered(allowList, methods, headers, origin, h))
         == Filtered(allowList, methods, headers, origin, h)
  {
    var once := Filtered(allowList, methods, headers, origin, h);
    var twice := Filtered(allowList, methods, headers, origin, once);
    if Allowed(allowList, origin) {
      assert twice.Keys == once.Keys;
      forall name | name in once ensures twice[name] == once[name] {
        if name !in CorsHeaderNames {
          assert name in h;
        }
      }
    }
  }

  /** The header map of one response, updated in place. */
  class ResponseHeaders {
    var headers: Headers

    constructor (initial: Headers)
      ensures headers == initial
    {
      headers := initial;
    }

    /** Replaces every value held under name by the single value. */
    method PutSingle(name: string, value: string)
      modifies this
      ensures headers == old(headers)[name := [value]]
    {
      headers := headers[name := [value]];
    }
  }

  /** The filter with its configuration, read once when it is set up. */
  class CrossOriginResourceSharingFilter {
    const allowedHostsList: Option<seq<string>>
    const allowedMethods: string
    const allowedHeaders: string

    /** The three configured strings: origins (possibly missing), methods and headers. */
    constructor (allowedHosts: Option<string>, allowedMethods: string, allowedHeaders: string)
      ensures allowedHostsList == ParseAllowList(allowedHosts)
      ensures this.allowedMethods == allowedMethods && this.allowedHeaders == allowedHeaders
    {
      allowedHostsList := ParseAllowList(allowedHosts);
      this.allowedMethods := allowedMethods;
      this.allowedHeaders := allowedHeaders;
    }

    /** Sets the four cross-origin headers on the response when the request's Origin is allowed. */
    method Filter(origin: Option<string>, response: ResponseHeaders)
      modifies response
      ensures response.headers == Filtered(allowedHostsList, allowedMethods, allowedHeaders, origin, old(response.headers))
    {
      if allowedHostsList.Some? {
        if origin.Some? && origin.value in allowedHostsList.value {
          response.PutSingle(ALLOW_ORIGIN, origin.value);
          response.PutSingle(ALLOW_METHODS, allowedMethods);
          response.PutSingle(ALLOW_HEADERS, allowedHeaders);
          response.PutSingle(VARY, "Origin");
        }
      }
    }
  }
}
