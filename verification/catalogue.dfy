/**
 * The product catalogue a new week is fanned out from, as a read-only
 * sequence of products, and the two queries week creation runs on it: the
 * distinct lines with one image each, and the reference codes of one line.
 */
module Catalogue {
  import opened Wrappers

  datatype Product = Product(
    ligne: string,
    reference: string,
    imageUrl: Option<string>,
    imageOriginalName: Option<string>
  )

  /** No element occurs twice. */
  predicate NoDup<T(==)>(s: seq<T>) {
    forall i, j :: 0 <= i < j < |s| ==> s[i] != s[j]
  }

  /** The line names the catalogue mentions. */
  function LineSet(cat: seq<Product>): set<string> {
    set p | p in cat :: p.ligne
  }

  /**
   * `SELECT ligne … GROUP BY ligne`: each line name once, in order of first
   * appearance in the catalogue.
   */
  function DistinctLines(cat: seq<Product>): (r: seq<string>)
    decreases |cat|
    ensures NoDup(r)
    ensures forall l :: l in r <==> l in LineSet(cat)
  {
    if cat == [] then []
    else
      var prefix := cat[..|cat| - 1];
      var p := cat[|cat| - 1];
      var d := DistinctLines(prefix);
      assert cat == prefix + [p];
      if p.ligne in d then d else d + [p.ligne]
  }

  /** `productRepository.find({ where: { ligne }, select: ['reference'] })`, in catalogue order. */
  function ReferencesOfLine(cat: seq<Product>, ligne: string): seq<string>
    decreases |cat|
  {
    if cat == [] then []
    else
      var p := cat[|cat| - 1];
      ReferencesOfLine(cat[..|cat| - 1], ligne) + (if p.ligne == ligne then [p.reference] else [])
  }

  /**
   * `MAX(product.imageUrl)` for one line, with the tie-break left free: the
   * first non-null URL among the line's products, or null when all are null.
   */
  function LineImageUrl(cat: seq<Product>, ligne: string): Option<string>
    decreases |cat|
  {
    if cat == [] then None
    else if cat[0].ligne == ligne && cat[0].imageUrl.Some? then cat[0].imageUrl
    else LineImageUrl(cat[1..], ligne)
  }

  /** The URL chosen for a line is one of its products' URLs, and null only when all of them are. */
  lemma {:induction false} LineImageUrlChosen(cat: seq<Product>, ligne: string)
    decreases |cat|
    ensures LineImageUrl(cat, ligne).Some? ==>
      exists p :: p in cat && p.ligne == ligne && p.imageUrl == LineImageUrl(cat, ligne)
    ensures LineImageUrl(cat, ligne).None? ==> forall p :: p in cat && p.ligne == ligne ==> p.imageUrl.None?
  {
    if cat != [] && !(cat[0].ligne == ligne && cat[0].imageUrl.Some?) {
      LineImageUrlChosen(cat[1..], ligne);
      assert forall p :: p in cat ==> p == cat[0] || p in cat[1..];
    }
  }

  /**
   * `MAX(product.imageOriginalName)` for one line, chosen independently of the
   * URL and with the tie-break left free: the first non-null name among the
   * line's products, or null when all are null.
   */
  function LineImageName(cat: seq<Product>, ligne: string): Option<string>
    decreases |cat|
  {
    if cat == [] then None
    else if cat[0].ligne == ligne && cat[0].imageOriginalName.Some? then cat[0].imageOriginalName
    else LineImageName(cat[1..], ligne)
  }

  /** The image name chosen for a line is one of its products' names, and null only when all of them are. */
  lemma {:induction false} LineImageNameChosen(cat: seq<Product>, ligne: string)
    decreases |cat|
    ensures LineImageName(cat, ligne).Some? ==>
      exists p :: p in cat && p.ligne == ligne && p.imageOriginalName == LineImageName(cat, ligne)
    ensures LineImageName(cat, ligne).None? ==> forall p :: p in cat && p.ligne == ligne ==> p.imageOriginalName.None?
  {
    if cat != [] && !(cat[0].ligne == ligne && cat[0].imageOriginalName.Some?) {
      LineImageNameChosen(cat[1..], ligne);
      assert forall p :: p in cat ==> p == cat[0] || p in cat[1..];
    }
  }

  /** The number of references the lines `ls` fan out to. */
  function TotalReferences(cat: seq<Product>, ls: seq<string>): nat
    decreases |ls|
  {
    if ls == [] then 0 else |ReferencesOfLine(cat, ls[0])| + TotalReferences(cat, ls[1..])
  }

  lemma {:induction false} TotalReferencesAppend(cat: seq<Product>, a: seq<string>, b: seq<string>)
    decreases |a|
    ensures TotalReferences(cat, a + b) == TotalReferences(cat, a) + TotalReferences(cat, b)
  {
    if a != [] {
      assert (a + b)[0] == a[0];
      assert (a + b)[1..] == a[1..] + b;
      TotalReferencesAppend(cat, a[1..], b);
    } else {
      assert a + b == b;
    }
  }

  /** A line the catalogue does not mention has no references. */
  lemma {:induction false} ReferencesOfAbsentLine(cat: seq<Product>, ligne: string)
    decreases |cat|
    requires ligne !in LineSet(cat)
    ensures ReferencesOfLine(cat, ligne) == []
  {
    if cat != [] {
      var prefix := cat[..|cat| - 1];
      assert cat == prefix + [cat[|cat| - 1]];
      assert LineSet(prefix) <= LineSet(cat);
      ReferencesOfAbsentLine(prefix, ligne);
    }
  }

  /** Appending one product adds one reference to the lines `ls` exactly when its line is among them. */
  lemma {:induction false} TotalReferencesSnoc(cat: seq<Product>, ls: seq<string>)
    decreases |ls|
    requires cat != [] && NoDup(ls)
    ensures TotalReferences(cat, ls)
         == TotalReferences(cat[..|cat| - 1], ls) + (if cat[|cat| - 1].ligne in ls then 1 else 0)
  {
    if ls != [] {
      assert NoDup(ls[1..]);
      TotalReferencesSnoc(cat, ls[1..]);
      assert cat[|cat| - 1].ligne in ls <==> cat[|cat| - 1].ligne == ls[0] || cat[|cat| - 1].ligne in ls[1..];
    }
  }

  /** Every product becomes exactly one reference of exactly one distinct line. */
  lemma {:induction false} EveryProductFannedOutOnce(cat: seq<Product>)
    decreases |cat|
    ensures TotalReferences(cat, DistinctLines(cat)) == |cat|
  {
    if cat != [] {
      var prefix := cat[..|cat| - 1];
      var p := cat[|cat| - 1];
      var d := DistinctLines(prefix);
      assert cat == prefix + [p];
      EveryProductFannedOutOnce(prefix);
      if p.ligne in d {
        TotalReferencesSnoc(cat, d);
      } else {
        TotalReferencesSnoc(cat, d);
        TotalReferencesAppend(cat, d, [p.ligne]);
        ReferencesOfAbsentLine(prefix, p.ligne);
        assert TotalReferences(cat, [p.ligne]) == |ReferencesOfLine(cat, p.ligne)|;
      }
    }
  }

  /** A sequence without duplicates has as many elements as its set. */
  lemma {:induction false} NoDupCardinality<T>(s: seq<T>)
    decreases |s|
    requires NoDup(s)
    ensures |set x | x in s| == |s|
  {
    if s != [] {
      assert NoDup(s[1..]);
      NoDupCardinality(s[1..]);
      assert (set x | x in s) == {s[0]} + (set x | x in s[1..]);
    }
  }

  /** Week creation makes as many lines as the catalogue has distinct line names. */
  lemma DistinctLinesCount(cat: seq<Product>)
    ensures |DistinctLines(cat)| == |LineSet(cat)|
  {
    var d := DistinctLines(cat);
    NoDupCardinality(d);
    assert (set x | x in d) == LineSet(cat);
  }

  /** Products r1 and r2 of line A and r3 of line B give the lines A and B, in that order. */
  lemma ExampleTwoLines()
    ensures DistinctLines([Product("A", "r1", None, None), Product("A", "r2", None, None),
                           Product("B", "r3", None, None)]) == ["A", "B"]
  {
    var p1, p2, p3 := Product("A", "r1", None, None), Product("A", "r2", None, None), Product("B", "r3", None, None);
    var c1, c2, c3 := [p1], [p1, p2], [p1, p2, p3];
    assert c1[..0] == [] && c2[..1] == c1 && c3[..2] == c2;
    assert "B" != "A" by { assert "B"[0] != "A"[0]; }
    assert DistinctLines(c1) == ["A"];
    assert DistinctLines(c2) == ["A"];
  }
}
