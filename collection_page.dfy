/**
 * The collection route (`pages/collection`): it reads a `collectionId` route parameter, waits
 * for the browse hook's collections, and selects the first collection whose id renders to
 * that parameter.
 */
module CollectionPage {
  import opened Wrappers
  import opened Domain
  import opened Text
  import opened Paging
  import Seqs
  import UseMasterpieces

  /** `collections.find(c => c.id.toString() === collectionId)` */
  function FindById(cs: seq<ArtCollection>, id: string): (found: Option<ArtCollection>)
    ensures found.Some? ==> found.value in cs && IntToDecimal(found.value.id) == id
  {
    Seqs.Find(cs, (c: ArtCollection) => IntToDecimal(c.id) == id)
  }

  /** The route parameter of a collection finds the first collection carrying that id. */
  lemma FindByRenderedId(cs: seq<ArtCollection>, i: nat)
    requires i < |cs|
    requires forall j :: 0 <= j < i ==> cs[j].id != cs[i].id
    ensures FindById(cs, IntToDecimal(cs[i].id)) == Some(cs[i])
  {
    var p := (c: ArtCollection) => IntToDecimal(c.id) == IntToDecimal(cs[i].id);
    forall j | 0 <= j < i
      ensures !p(cs[j])
    {
      IntToDecimalInjective(cs[j].id, cs[i].id);
    }
    Seqs.FindFirst(cs, p, i);
  }

  /** The lookup finds nothing exactly when no collection's id renders to the parameter. */
  lemma FindByIdNoneIffAbsent(cs: seq<ArtCollection>, id: string)
    ensures FindById(cs, id).None? <==> forall c :: c in cs ==> IntToDecimal(c.id) != id
  {
    var p := (c: ArtCollection) => IntToDecimal(c.id) == id;
    var k := Seqs.FindIndex(cs, p);
    if k.Some? {
      assert cs[k.value] in cs;
    } else {
      forall c | c in cs
        ensures IntToDecimal(c.id) != id
      {
        var j :| 0 <= j < |cs| && cs[j] == c;
        assert !p(cs[j]);
      }
    }
  }

  /** A parameter that is not the decimal rendering of an integer never matches. */
  lemma MalformedIdNeverMatches(cs: seq<ArtCollection>, id: string)
    requires ParseInt(id).None?
    ensures FindById(cs, id).None?
  {
    forall c | c in cs
      ensures IntToDecimal(c.id) != id
    {
      IntRoundTrip(c.id);
    }
    FindByIdNoneIffAbsent(cs, id);
  }

  /** What the route renders. */
  datatype Screen = LoadingScreen | NotFound | Viewing(collection: ArtCollection)

  class CollectionRoute {
    const collectionId: Option<string>
    const browse: UseMasterpieces.BrowseState
    var loading: bool

    constructor (collectionId: Option<string>, browse: UseMasterpieces.BrowseState)
      ensures this.collectionId == collectionId && this.browse == browse
      ensures loading
    {
      this.collectionId := collectionId;
      this.browse := browse;
      loading := true;
    }

    /** The first page of the render: spinner while loading, then not-found or the viewer. */
    function CurrentScreen(): Screen
      reads this, browse
    {
      if loading then LoadingScreen
      else if browse.selected.None? then NotFound
      else Viewing(browse.selected.value)
    }

    /**
     * The lookup effect. It does nothing until the parameter is present and collections have
     * arrived; then it selects the match, if any, and ends loading either way.
     */
    method LookupEffect()
      requires browse.Valid()
      modifies this, browse
      ensures browse.Valid()
      ensures browse.collections == old(browse.collections)
      ensures browse.loading == old(browse.loading) && browse.error == old(browse.error)
      ensures !(IsTruthy(collectionId) && |old(browse.collections)| > 0) ==>
        loading == old(loading) && unchanged(browse)
      ensures IsTruthy(collectionId) && |old(browse.collections)| > 0 ==> !loading
      ensures IsTruthy(collectionId) && FindById(old(browse.collections), collectionId.value).Some? ==>
        browse.selected == FindById(old(browse.collections), collectionId.value) &&
        browse.currentPage == 0 &&
        CurrentScreen() == Viewing(FindById(old(browse.collections), collectionId.value).value)
      ensures IsTruthy(collectionId) && FindById(old(browse.collections), collectionId.value).None? ==>
        browse.selected == old(browse.selected) && browse.currentPage == old(browse.currentPage)
      ensures IsTruthy(collectionId) && |old(browse.collections)| > 0 &&
              FindById(old(browse.collections), collectionId.value).None? && old(browse.selected).None? ==>
        CurrentScreen() == NotFound
    {
      if collectionId.Some? && collectionId.value != "" && |browse.collections| > 0 {
        var found := FindById(browse.collections, collectionId.value);
        if found.Some? {
          browse.SelectCollection(found.value);
        }
        loading := false;
      }
    }
  }
}
