/**
 * Total-page resolution from the navigation links of a directory response.
 *
 * A link is its relation name plus the `pagina` number already read from its
 * URL; URL parsing and `parseInt` are not modelled.
 */
module Pagination {
  import opened Wrappers
  import opened ArraySearch

  datatype Link = Link(rel: string, pagina: int)

  /** `links.find(link => link.rel === 'last')`. */
  function LastLink(links: seq<Link>): (r: Option<Link>)
    ensures r.None? <==> forall k :: 0 <= k < |links| ==> links[k].rel != "last"
    ensures r.Some? ==>
      exists k :: 0 <= k < |links| && r.value == links[k] && links[k].rel == "last" &&
                  forall j :: 0 <= j < k ==> links[j].rel != "last"
  {
    Find(links, (l: Link) => l.rel == "last")
  }

  /**
   * The total page count: the page of the first "last" link when there is
   * one; otherwise the current page if the deduplicated page holds any
   * records, and 1 if it holds none.
   */
  function ResolveTotalPages(links: seq<Link>, resultCount: nat, pagina: int): (r: int)
    ensures forall k ::
      (0 <= k < |links| && links[k].rel == "last" && forall j :: 0 <= j < k ==> links[j].rel != "last")
      ==> r == links[k].pagina
    ensures (forall k :: 0 <= k < |links| ==> links[k].rel != "last") ==>
      r == if resultCount > 0 then pagina else 1
  {
    match LastLink(links)
    case Some(l) => l.pagina
    case None => if resultCount > 0 then pagina else 1
  }

  /** With a "last" link, only the first such link matters: links after it never change the count. */
  lemma ResolveIgnoresLaterLinks(links: seq<Link>, more: seq<Link>, resultCount: nat, pagina: int)
    requires exists k :: 0 <= k < |links| && links[k].rel == "last"
    ensures ResolveTotalPages(links + more, resultCount, pagina) == ResolveTotalPages(links, resultCount, pagina)
  {
    var p := (l: Link) => l.rel == "last";
    var k := FindIndex(links, p);
    assert (links + more)[k] == links[k];
    assert forall j :: 0 <= j < k ==> (links + more)[j] == links[j];
  }

  /** The count is at least 1 whenever the current page and every "last" page are. */
  lemma ResolveTotalPagesPositive(links: seq<Link>, resultCount: nat, pagina: int)
    requires pagina >= 1
    requires forall k :: 0 <= k < |links| && links[k].rel == "last" ==> links[k].pagina >= 1
    ensures ResolveTotalPages(links, resultCount, pagina) >= 1
  {
    var p := (l: Link) => l.rel == "last";
    var k := FindIndex(links, p);
    if k != -1 {
      assert links[k].rel == "last";
    }
  }

  /** A "last" link to page 7 gives 7; no link, three records on page 2 gives 2; no link, no records gives 1. */
  lemma ResolveTotalPagesExamples(other: Link)
    requires other.rel != "last"
    ensures ResolveTotalPages([other, Link("last", 7)], 50, 1) == 7
    ensures ResolveTotalPages([other], 3, 2) == 2
    ensures ResolveTotalPages([], 0, 2) == 1
  {
    var links := [other, Link("last", 7)];
    assert links[1].rel == "last" && links[0].rel != "last";
  }
}
