/** Which entries a directory listing shows, and when it says the directory is empty. */
module Listing {
  import opened Http
  import opened World
  import opened Responses

  predicate Visible(e: DirEntry) { e.name == "" || e.name[0] != '.' }

  function VisibleEntries(es: seq<DirEntry>): seq<DirEntry> {
    if es == [] then []
    else if Visible(es[0]) then [es[0]] + VisibleEntries(es[1..])
    else VisibleEntries(es[1..])
  }

  function Join(texts: seq<string>): string {
    if texts == [] then "" else texts[0] + Join(texts[1..])
  }

  function ItemTexts(cfg: Config, dirPath: string, es: seq<DirEntry>): (ts: seq<string>)
    ensures |ts| == |es| && forall k :: 0 <= k < |es| ==> ts[k] == Item(cfg, dirPath, es[k])
  {
    if es == [] then [] else [Item(cfg, dirPath, es[0])] + ItemTexts(cfg, dirPath, es[1..])
  }

  lemma {:induction false} ItemsFromFront(cfg: Config, dirPath: string, e: DirEntry, es: seq<DirEntry>)
    ensures Items(cfg, dirPath, [e] + es)
         == (if Visible(e) then Item(cfg, dirPath, e) else "") + Items(cfg, dirPath, es)
  {
    hide Item;
    var all := [e] + es;
    if es == [] {
      assert all[..0] == [];
      assert Items(cfg, dirPath, all[..0]) == "";
    } else {
      var init := es[..|es| - 1];
      assert all[..|all| - 1] == [e] + init;
      ItemsFromFront(cfg, dirPath, e, init);
    }
  }

  /** The listing holds one item per entry without a leading dot, in directory order. */
  lemma {:induction false} ItemsInOrder(cfg: Config, dirPath: string, es: seq<DirEntry>)
    ensures Items(cfg, dirPath, es) == Join(ItemTexts(cfg, dirPath, VisibleEntries(es)))
  {
    hide Item;
    if es != [] {
      ItemsFromFront(cfg, dirPath, es[0], es[1..]);
      ItemsInOrder(cfg, dirPath, es[1..]);
      assert [es[0]] + es[1..] == es;
      if Visible(es[0]) {
        var vs := VisibleEntries(es[1..]);
        assert ([es[0]] + vs)[1..] == vs;
        var ts := ItemTexts(cfg, dirPath, [es[0]] + vs);
        assert ts[1..] == ItemTexts(cfg, dirPath, vs);
      }
    }
  }

  lemma ItemNotEmpty(cfg: Config, dirPath: string, e: DirEntry)
    ensures Item(cfg, dirPath, e) != ""
  {
  }

  /** "Empty directory" is shown exactly when every entry is hidden. */
  lemma {:induction false} EmptyListing(cfg: Config, dirPath: string, es: seq<DirEntry>)
    ensures Items(cfg, dirPath, es) == "" <==> forall k :: 0 <= k < |es| ==> !Visible(es[k])
  {
    hide Item;
    if es != [] {
      var init := es[..|es| - 1];
      EmptyListing(cfg, dirPath, init);
      ItemNotEmpty(cfg, dirPath, es[|es| - 1]);
      assert forall k :: 0 <= k < |init| ==> init[k] == es[k];
    }
  }

  /** Every entry that is shown stands between the entries before it and those after it, inside
      the page, with the icon of its kind and a link to its path from the root. */
  lemma {:induction false} EntryListed(cfg: Config, dirPath: string, es: seq<DirEntry>, k: nat)
    requires k < |es| && Visible(es[k])
    ensures var e := es[k]; var icon := if e.isDir then cfg.dirIcon else cfg.fileIcon;
            ListingBody(Items(cfg, dirPath, es))
            == "<html><body><h1>Directory:</h1><ul>"
               + (Items(cfg, dirPath, es[..k])
                  + ("<li>" + icon + " <a href=\"/" + dirPath + "/" + e.name + "\">" + e.name + "</a></li>")
                  + Items(cfg, dirPath, es[k + 1..]))
               + "</ul></body></html>"
  {
    hide Item;
    ItemsAround(cfg, dirPath, es, k);
    ItemReads(cfg, dirPath, es[k]);
    ItemNotEmpty(cfg, dirPath, es[k]);
  }

  lemma ItemReads(cfg: Config, dirPath: string, e: DirEntry)
    ensures var icon := if e.isDir then cfg.dirIcon else cfg.fileIcon;
            Item(cfg, dirPath, e)
            == "<li>" + icon + " <a href=\"/" + dirPath + "/" + e.name + "\">" + e.name + "</a></li>"
  {
  }

  lemma {:induction false} ItemsAround(cfg: Config, dirPath: string, es: seq<DirEntry>, k: nat)
    requires k < |es| && Visible(es[k])
    ensures Items(cfg, dirPath, es)
         == Items(cfg, dirPath, es[..k]) + Item(cfg, dirPath, es[k]) + Items(cfg, dirPath, es[k + 1..])
    decreases |es|
  {
    hide Item;
    var n := |es| - 1;
    var init, last := es[..n], es[n];
    if k == n {
      assert es[k + 1..] == [] && Items(cfg, dirPath, []) == "";
    } else {
      assert init[..k] == es[..k] && init[k] == es[k];
      var after := es[k + 1..];
      assert after[..|after| - 1] == init[k + 1..] && after[|after| - 1] == last;
      ItemsAround(cfg, dirPath, init, k);
    }
  }

  /** A listing without such entries says so. */
  lemma NothingListed(cfg: Config, dirPath: string, es: seq<DirEntry>)
    requires forall k :: 0 <= k < |es| ==> !Visible(es[k])
    ensures ListingBody(Items(cfg, dirPath, es))
         == "<html><body><h1>Directory:</h1><ul>" + "<h2>Empty directory</h2>" + "</ul></body></html>"
  {
    EmptyListing(cfg, dirPath, es);
  }
}
