/** The lists the classification loader assembles from the category hierarchy:
    the categories linked to the images, de-duplicated by id, and the
    categories still available, i.e. not linked. */
module ClassificationLists {
  import opened Common

  /** `CategoryData`: a tag. Two categories may share an id without being
      the same object, so `name` stands for the rest of the object. */
  datatype Category = Category(id: Long, name: string)

  /** `CategoryGroupData`: a tag set. */
  datatype CategoryGroup = CategoryGroup(id: Long, name: string)

  /** The ids of `cs`, position by position. */
  function IdsOf(cs: seq<Category>): seq<Long>
  {
    seq(|cs|, k requires 0 <= k < |cs| => cs[k].id)
  }

  /** What the loop over the found paths leaves in `r`: each category whose
      id has not been added yet is added. */
  function DedupById(s: seq<Category>): seq<Category>
  {
    if s == [] then []
    else
      var r := DedupById(s[..|s| - 1]);
      if Last(s).id in IdsOf(r) then r else r + [Last(s)]
  }

  /** Position `i` holds the first category of `s` with its id. */
  ghost predicate IsFirstAt(s: seq<Category>, i: int)
    requires 0 <= i < |s|
  {
    forall j :: 0 <= j < i ==> s[j].id != s[i].id
  }

  /** Reference definition: the categories at first-occurrence positions, in
      the order they occur. */
  ghost function FirstOccurrences(s: seq<Category>): seq<Category>
  {
    if s == [] then []
    else FirstOccurrences(s[..|s| - 1]) + (if IsFirstAt(s, |s| - 1) then [Last(s)] else [])
  }

  /** What the loop over the full category list leaves in `r`: every category
      whose id is not in `ids`, in order. */
  function Unlinked(s: seq<Category>, ids: seq<Long>): seq<Category>
  {
    if s == [] then []
    else Unlinked(s[..|s| - 1], ids) + (if Last(s).id in ids then [] else [Last(s)])
  }

  /** The de-duplicated list covers exactly the ids of its input. */
  lemma {:induction false} DedupByIdSameIds(s: seq<Category>)
    ensures forall id :: id in IdsOf(DedupById(s)) <==> id in IdsOf(s)
  {
    if s != [] {
      var p := s[..|s| - 1];
      DedupByIdSameIds(p);
      assert s == p + [Last(s)];
      forall id
        ensures id in IdsOf(s) <==> id in IdsOf(p) || id == Last(s).id
      {
        if id in IdsOf(s) {
          var k :| 0 <= k < |s| && IdsOf(s)[k] == id;
          if k < |p| { assert IdsOf(p)[k] == id; }
        }
        if id in IdsOf(p) {
          var k :| 0 <= k < |p| && IdsOf(p)[k] == id;
          assert IdsOf(s)[k] == id;
        }
        if id == Last(s).id { assert IdsOf(s)[|s| - 1] == id; }
      }
      var r := DedupById(p);
      if Last(s).id !in IdsOf(r) {
        forall id
          ensures id in IdsOf(r + [Last(s)]) <==> id in IdsOf(r) || id == Last(s).id
        {
          var r' := r + [Last(s)];
          if id in IdsOf(r') {
            var k :| 0 <= k < |r'| && IdsOf(r')[k] == id;
            if k < |r| { assert IdsOf(r)[k] == id; }
          }
          if id in IdsOf(r) {
            var k :| 0 <= k < |r| && IdsOf(r)[k] == id;
            assert IdsOf(r')[k] == id;
          }
          if id == Last(s).id { assert IdsOf(r')[|r|] == id; }
        }
      }
    }
  }

  /** Each id occurs at most once in the de-duplicated list. */
  lemma {:induction false} DedupByIdDistinct(s: seq<Category>)
    ensures forall j, k :: 0 <= j < k < |DedupById(s)| ==> DedupById(s)[j].id != DedupById(s)[k].id
  {
    if s != [] {
      var p := s[..|s| - 1];
      DedupByIdDistinct(p);
      var r := DedupById(p);
      if Last(s).id !in IdsOf(r) {
        forall j | 0 <= j < |r|
          ensures r[j].id != Last(s).id
        {
          assert IdsOf(r)[j] == r[j].id;
        }
      }
    }
  }

  /** The de-duplicated list keeps, in order, exactly the first category
      found for each id. */
  lemma {:induction false} DedupByIdKeepsFirstOccurrences(s: seq<Category>)
    ensures DedupById(s) == FirstOccurrences(s)
  {
    if s != [] {
      var p := s[..|s| - 1];
      DedupByIdKeepsFirstOccurrences(p);
      DedupByIdSameIds(p);
      var last := Last(s);
      if last.id in IdsOf(p) {
        var k :| 0 <= k < |p| && IdsOf(p)[k] == last.id;
        assert s[k].id == last.id;
        assert !IsFirstAt(s, |s| - 1);
      } else {
        forall j | 0 <= j < |s| - 1
          ensures s[j].id != last.id
        {
          assert IdsOf(p)[j] == s[j].id;
        }
        assert IsFirstAt(s, |s| - 1);
      }
    }
  }

  /** The available list holds each category of `s` whose id is not linked
      exactly as often as `s` does, and nothing else: it is filtered, not
      de-duplicated. */
  lemma {:induction false} UnlinkedCounts(s: seq<Category>, ids: seq<Long>)
    ensures forall x :: multiset(Unlinked(s, ids))[x] == if x.id in ids then 0 else multiset(s)[x]
  {
    if s != [] {
      var p := s[..|s| - 1];
      UnlinkedCounts(p, ids);
      assert s == p + [Last(s)];
      assert multiset(s) == multiset(p) + multiset{Last(s)};
    }
  }

  /** Membership form of `UnlinkedCounts`. */
  lemma UnlinkedMembers(s: seq<Category>, ids: seq<Long>)
    ensures forall x :: x in Unlinked(s, ids) <==> x in s && x.id !in ids
  {
    UnlinkedCounts(s, ids);
    forall x
      ensures x in Unlinked(s, ids) <==> x in s && x.id !in ids
    {
      assert x in Unlinked(s, ids) <==> multiset(Unlinked(s, ids))[x] > 0;
      assert x in s <==> multiset(s)[x] > 0;
    }
  }
}
