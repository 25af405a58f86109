/** The catalog views of the main screen: the hero's featured entry, the
    genre list (every genre once, in order of first appearance), and the
    entries shown in each genre's row. The catalog itself is any sequence of
    entries. */
module Catalog {
  import opened Types

  /** `MOCK_CONTENT.flatMap(c => c.genre)`: every entry's genres, in order. */
  function AllGenres(catalog: seq<Content>): (r: seq<string>)
    ensures forall i, k :: 0 <= i < |catalog| && 0 <= k < |catalog[i].genre| ==> catalog[i].genre[k] in r
    ensures forall g :: g in r ==> exists i :: 0 <= i < |catalog| && g in catalog[i].genre
  {
    if catalog == [] then []
    else
      var rest := AllGenres(catalog[1..]);
      assert forall i :: 1 <= i < |catalog| ==> catalog[i] == catalog[1..][i - 1];
      catalog[0].genre + rest
  }

  /** The position of the first occurrence of `x` in `xs`. */
  function FirstIndex(xs: seq<string>, x: string): (i: nat)
    requires x in xs
    ensures i < |xs| && xs[i] == x
    ensures forall k :: 0 <= k < i ==> xs[k] != x
  {
    if xs[0] == x then 0 else 1 + FirstIndex(xs[1..], x)
  }

  /** `[...new Set(xs)]` after the values in `seen`: the values of `xs` not in
      `seen`, each once, in order of first appearance in `xs` (a `Set` iterates
      in insertion order). */
  function DedupFrom(xs: seq<string>, seen: set<string>): (r: seq<string>)
    ensures forall x :: x in r <==> x in xs && x !in seen
    ensures forall i, j :: 0 <= i < j < |r| ==> r[i] != r[j]
    ensures forall i, j :: 0 <= i < j < |r| ==> FirstIndex(xs, r[i]) < FirstIndex(xs, r[j])
    ensures |r| <= |xs|
  {
    if xs == [] then []
    else if xs[0] in seen then
      var rest := DedupFrom(xs[1..], seen);
      assert forall x :: x in xs[1..] ==> x in xs;
      assert forall i :: 0 <= i < |rest| ==> FirstIndex(xs, rest[i]) == 1 + FirstIndex(xs[1..], rest[i]);
      rest
    else
      var rest := DedupFrom(xs[1..], seen + {xs[0]});
      assert forall x :: x in xs[1..] ==> x in xs;
      assert forall i :: 0 <= i < |rest| ==> FirstIndex(xs, rest[i]) == 1 + FirstIndex(xs[1..], rest[i]);
      [xs[0]] + rest
  }

  /** `[...new Set(catalog.flatMap(c => c.genre))]`: the rows of the home page,
      one per genre, ordered by where each genre first appears. */
  function Genres(catalog: seq<Content>): (r: seq<string>)
    ensures forall g :: g in r <==> g in AllGenres(catalog)
    ensures forall i, j :: 0 <= i < j < |r| ==> r[i] != r[j]
    ensures forall i, j :: 0 <= i < j < |r| ==>
              FirstIndex(AllGenres(catalog), r[i]) < FirstIndex(AllGenres(catalog), r[j])
  {
    DedupFrom(AllGenres(catalog), {})
  }

  /** `AllGenres` is `flatMap` over the genre lists: nothing for no entries, an
      entry's own genres for one entry, and concatenation over a split catalog,
      which fixes both the order and the repetitions of the flattened list. */
  lemma {:induction false} AllGenresIsFlatMap(a: seq<Content>, b: seq<Content>, c: Content)
    ensures AllGenres([]) == []
    ensures AllGenres([c]) == c.genre
    ensures AllGenres(a + b) == AllGenres(a) + AllGenres(b)
  {
    assert [c][1..] == [];
    if a != [] {
      assert (a + b)[1..] == a[1..] + b;
      AllGenresIsFlatMap(a[1..], b, c);
    } else {
      assert a + b == b;
    }
  }

  /** `catalog.filter(c => c.genre.includes(g))`: the row for genre `g`. */
  function RowContents(catalog: seq<Content>, g: string): (r: seq<Content>)
    ensures forall c :: c in r <==> c in catalog && g in c.genre
    ensures |r| <= |catalog|
  {
    if catalog == [] then []
    else
      var rest := RowContents(catalog[1..], g);
      assert forall c :: c in catalog[1..] ==> c in catalog;
      if g in catalog[0].genre then [catalog[0]] + rest else rest
  }

  /** `RowContents` is `filter`: nothing for no entries, the entry itself or
      nothing for one entry, and concatenation over a split catalog, so a row
      keeps the catalog's order and repetitions. */
  lemma {:induction false} RowContentsIsFilter(a: seq<Content>, b: seq<Content>, c: Content, g: string)
    ensures RowContents([], g) == []
    ensures RowContents([c], g) == if g in c.genre then [c] else []
    ensures RowContents(a + b, g) == RowContents(a, g) + RowContents(b, g)
  {
    assert [c][1..] == [];
    if a != [] {
      assert (a + b)[1..] == a[1..] + b;
      RowContentsIsFilter(a[1..], b, c, g);
    } else {
      assert a + b == b;
    }
  }

  /** The genre list names exactly the genres some entry has, and every entry
      appears in the row of each of its genres (so only an entry without a genre
      is missing from the home page's rows). */
  lemma {:induction false} RowsCoverCatalog(catalog: seq<Content>)
    ensures forall g :: g in Genres(catalog) <==> exists i :: 0 <= i < |catalog| && g in catalog[i].genre
    ensures forall i, k :: 0 <= i < |catalog| && 0 <= k < |catalog[i].genre| ==>
              catalog[i].genre[k] in Genres(catalog) && catalog[i] in RowContents(catalog, catalog[i].genre[k])
  {
    var all := AllGenres(catalog);
    forall g
      ensures g in Genres(catalog) <==> exists i :: 0 <= i < |catalog| && g in catalog[i].genre
    {
      if exists i :: 0 <= i < |catalog| && g in catalog[i].genre {
        var i :| 0 <= i < |catalog| && g in catalog[i].genre;
        var k :| 0 <= k < |catalog[i].genre| && catalog[i].genre[k] == g;
        assert g in all;
      }
    }
  }

  /** The entry is featured: `c.featured` is truthy. */
  predicate IsFeatured(c: Content) {
    c.featured == Some(true)
  }

  /** `catalog.findIndex(c => c.featured)`, with `|catalog|` for "none": every
      entry before it is not featured, and the one at it is. */
  function FirstFeaturedIndex(catalog: seq<Content>): (i: nat)
    ensures i <= |catalog|
    ensures forall j :: 0 <= j < i ==> !IsFeatured(catalog[j])
    ensures i < |catalog| ==> IsFeatured(catalog[i])
  {
    if catalog == [] then 0
    else if IsFeatured(catalog[0]) then 0
    else
      var i := FirstFeaturedIndex(catalog[1..]);
      assert forall j :: 1 <= j < |catalog| ==> catalog[j] == catalog[1..][j - 1];
      1 + i
  }

  /** `MOCK_CONTENT.find(c => c.featured) || MOCK_CONTENT[0]`: the first featured
      entry, else the first entry; an empty catalog has none. */
  function FeaturedContent(catalog: seq<Content>): (r: Option<Content>)
    ensures r.Some? <==> |catalog| > 0
    ensures r.Some? ==> r.value in catalog
    ensures forall i :: 0 <= i < |catalog| && IsFeatured(catalog[i]) ==>
              && FirstFeaturedIndex(catalog) <= i
              && r == Some(catalog[FirstFeaturedIndex(catalog)])
              && IsFeatured(r.value)
    ensures (forall i :: 0 <= i < |catalog| ==> !IsFeatured(catalog[i])) && |catalog| > 0 ==>
              r == Some(catalog[0])
  {
    var i := FirstFeaturedIndex(catalog);
    if i < |catalog| then Some(catalog[i])
    else if |catalog| > 0 then Some(catalog[0])
    else None
  }
}
