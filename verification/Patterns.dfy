/** The anchored regular expressions that classify a segment, as sequences of
    repeated character classes. */
module Patterns {
  import opened Wrappers

  /** class_{least,most}, or class_{least,} without an upper end. */
  datatype Piece = Piece(class_: char -> bool, least: nat, most: Option<nat>)

  /** The whole of s matches the pieces, one after the other. */
  ghost predicate Matches(pieces: seq<Piece>, s: string) {
    if pieces == [] then s == ""
    else exists k: nat :: k <= |s| && Takes(pieces[0], s[..k]) && Matches(pieces[1..], s[k..])
  }

  predicate Takes(p: Piece, s: string) {
    p.least <= |s| && (p.most.Some? ==> |s| <= p.most.value) && forall c <- s :: p.class_(c)
  }

  /** A piece of fixed length takes just that prefix. */
  lemma FixedPiece(p: Piece, rest: seq<Piece>, s: string)
    requires p.most == Some(p.least)
    ensures Matches([p] + rest, s) <==>
            p.least <= |s| && (forall i | 0 <= i < p.least :: p.class_(s[i])) && Matches(rest, s[p.least..])
  {
    var pieces := [p] + rest;
    assert pieces[1..] == rest;
    if Matches(pieces, s) {
      var k: nat :| k <= |s| && Takes(pieces[0], s[..k]) && Matches(pieces[1..], s[k..]);
      assert k == p.least;
      forall i | 0 <= i < k ensures p.class_(s[i]) { assert s[..k][i] in s[..k]; }
    }
    if p.least <= |s| && (forall i | 0 <= i < p.least :: p.class_(s[i])) && Matches(rest, s[p.least..]) {
      assert Takes(pieces[0], s[..p.least]);
    }
  }

  /** The last piece takes all that is left. */
  lemma LastPiece(p: Piece, s: string)
    ensures Matches([p], s) <==> Takes(p, s)
  {
    var pieces := [p];
    assert pieces[1..] == [];
    assert s[..|s|] == s && s[|s|..] == "";
    if Matches(pieces, s) {
      var k: nat :| k <= |s| && Takes(pieces[0], s[..k]) && Matches(pieces[1..], s[k..]);
      assert s[k..] == "" && k == |s|;
    }
    if Takes(p, s) { assert Takes(pieces[0], s[..|s|]) && Matches(pieces[1..], s[|s|..]); }
  }
}
