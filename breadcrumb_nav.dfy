/** `components/breadcrumb-nav.tsx`: a row of crumbs, each a link when it has a
    non-empty `href` and plain text otherwise, with a chevron after every crumb but
    the last. */
module BreadcrumbNav {
  import opened Seqs

  datatype Item = Item(labelText: string, href: Option<string>)

  datatype Content = Link(labelText: string, href: string) | Text(labelText: string)

  /** One rendered crumb: its content and whether a chevron follows it. */
  datatype Cell = Cell(content: Content, chevron: bool)

  /** `item.href ? <Link> : <span>`; the empty string is falsy. */
  function Crumb(item: Item): (c: Content)
    ensures c.labelText == item.labelText
    ensures c.Link? <==> item.href.Some? && item.href.value != ""
    ensures c.Link? ==> c.href == item.href.value
  {
    if item.href.Some? && item.href.value != "" then Link(item.labelText, item.href.value) else Text(item.labelText)
  }

  /** The rendered row, one cell per item in order. */
  function Render(items: seq<Item>): (cells: seq<Cell>)
    ensures |cells| == |items|
    ensures forall k :: 0 <= k < |items| ==> cells[k].content == Crumb(items[k])
    ensures forall k :: 0 <= k < |items| ==> (cells[k].chevron <==> k < |items| - 1)
  {
    seq(|items|, (k: int) requires 0 <= k < |items| => Cell(Crumb(items[k]), k < |items| - 1))
  }

  function Chevrons(cells: seq<Cell>): nat
  {
    if cells == [] then 0 else (if cells[0].chevron then 1 else 0) + Chevrons(cells[1..])
  }

  lemma {:induction false} ChevronsOfFlags(cells: seq<Cell>, n: nat)
    requires n <= |cells|
    requires forall k :: 0 <= k < |cells| ==> (cells[k].chevron <==> k < n)
    ensures Chevrons(cells) == n
  {
    if cells != [] {
      if n > 0 {
        ChevronsOfFlags(cells[1..], n - 1);
      } else {
        ChevronsOfFlags(cells[1..], 0);
      }
    }
  }

  /** A row of n crumbs shows n - 1 chevrons, and none when it is empty. */
  lemma ChevronCount(items: seq<Item>)
    ensures Chevrons(Render(items)) == if |items| == 0 then 0 else |items| - 1
  {
    var cells := Render(items);
    if |items| > 0 {
      ChevronsOfFlags(cells, |items| - 1);
    }
  }

  /** The compare page's crumbs: a link back to the universe page, then the current page as text. */
  lemma CompareCrumbs()
    ensures Render([Item("Universe", Some("/universe")), Item("Compare Mode", None)])
      == [Cell(Link("Universe", "/universe"), true), Cell(Text("Compare Mode"), false)]
  {
  }
}
