/** casalioy/ask_libgen.py: pick documents from a LibGen search to download.
    The search result is walked in order; an item is taken when its size is
    at most five MiB and it is a PDF or an EPUB, and the walk stops once
    enough items were taken. */
module AskLibgen {
  import opened Wrappers
  import opened Text

  /** One search hit, with the fields the selection reads. */
  datatype Item = Item(filesize: string, extension: string, mirror: string)

  const MaxDocSizeMb := 5
  const MaxDocSize := 1024 * 1024 * MaxDocSizeMb

  /** The size and format tests of the loop. */
  predicate Eligible(size: int, extension: string) {
    size <= MaxDocSize && (extension == "pdf" || extension == "epub")
  }

  /** A hit with the size `int(item["filesize"])` reads from it, `None` where
      that raises. */
  datatype Hit = Hit(item: Item, size: Option<int>)

  function Read(items: seq<Item>): (hits: seq<Hit>)
    ensures |hits| == |items|
  {
    seq(|items|, k requires 0 <= k < |items| => Hit(items[k], ParseInt(items[k].filesize)))
  }

  /** What the walk does: the items downloaded and whether it stopped on a
      file size `int()` could not read. */
  datatype Selection = Selection(downloaded: seq<Item>, failed: bool)

  /** The walk from position `i` with `count` items already downloaded. */
  function SelectFrom(hits: seq<Hit>, n: int, i: nat, count: nat): Selection
    requires i <= |hits|
    decreases |hits| - i
  {
    if i == |hits| || count >= n then Selection([], false)
    else
      match hits[i].size
      case None => Selection([], true)
      case Some(size) =>
        if !Eligible(size, hits[i].item.extension) then SelectFrom(hits, n, i + 1, count)
        else
          var rest := SelectFrom(hits, n, i + 1, count + 1);
          Selection([hits[i].item] + rest.downloaded, rest.failed)
  }

  function Selected(items: seq<Item>, n: int): Selection {
    SelectFrom(Read(items), n, 0, 0)
  }

  /** A hit that passes every test. */
  predicate Good(h: Hit) {
    h.size.Some? && Eligible(h.size.value, h.item.extension)
  }

  /** Reference: the item of every good hit, in order. */
  function GoodItems(hits: seq<Hit>): (r: seq<Item>)
    ensures |r| <= |hits|
  {
    if hits == [] then []
    else (if Good(hits[0]) then [hits[0].item] else []) + GoodItems(hits[1..])
  }

  function Take<T>(s: seq<T>, k: nat): (r: seq<T>)
    ensures |r| <= k && |r| <= |s| && r == s[..|r|]
    ensures |s| >= k ==> |r| == k
  {
    if |s| <= k then s else s[..k]
  }

  /** The walk never downloads more than it was asked for, and each download
      is the item of a good hit. */
  lemma {:induction false} SelectFromBound(hits: seq<Hit>, n: int, i: nat, count: nat)
    requires i <= |hits| && count <= n
    ensures |SelectFrom(hits, n, i, count).downloaded| <= n - count
    ensures forall x :: x in SelectFrom(hits, n, i, count).downloaded ==>
      exists k :: i <= k < |hits| && hits[k].item == x && Good(hits[k])
    decreases |hits| - i
  {
    if i < |hits| && count < n {
      SelectFromBound(hits, n, i + 1, count);
      SelectFromBound(hits, n, i + 1, count + 1);
    }
  }

  /** At most `n` items are downloaded (none for a count that is not
      positive), each one a search hit whose size reads as at most five MiB
      and whose extension is `pdf` or `epub`. */
  lemma SelectedBound(items: seq<Item>, n: int)
    ensures n <= 0 ==> Selected(items, n) == Selection([], false)
    ensures |Selected(items, n).downloaded| <= if n < 0 then 0 else n
    ensures forall x :: x in Selected(items, n).downloaded ==>
      exists k :: 0 <= k < |items| && items[k] == x && Good(Read(items)[k])
  {
    if n >= 0 {
      SelectFromBound(Read(items), n, 0, 0);
    }
  }

  /** When every file size reads as a number, the walk downloads exactly the
      first `n - count` good hits from position `i` on, and does not fail. */
  lemma {:induction false} SelectFromIsFirstGood(hits: seq<Hit>, n: int, i: nat, count: nat)
    requires i <= |hits| && count <= n
    requires forall k :: i <= k < |hits| ==> hits[k].size.Some?
    ensures SelectFrom(hits, n, i, count) == Selection(Take(GoodItems(hits[i..]), n - count), false)
    decreases |hits| - i
  {
    if i < |hits| {
      assert hits[i..][1..] == hits[i + 1..];
      assert hits[i..][0] == hits[i];
      if count < n {
        SelectFromIsFirstGood(hits, n, i + 1, count);
        SelectFromIsFirstGood(hits, n, i + 1, count + 1);
      } else {
        assert Take(GoodItems(hits[i..]), 0) == [];
      }
    }
  }

  /** The downloads are the first `n` good hits in search order (none for a
      count that is not positive). */
  lemma SelectedIsFirstGood(items: seq<Item>, n: int)
    requires forall k :: 0 <= k < |items| ==> ParseInt(items[k].filesize).Some?
    ensures Selected(items, n) == Selection(Take(GoodItems(Read(items)), if n < 0 then 0 else n), false)
  {
    var hits := Read(items);
    if n < 0 {
      assert Take(GoodItems(hits), 0) == [];
    } else {
      SelectFromIsFirstGood(hits, n, 0, 0);
      assert hits[0..] == hits;
    }
  }

  /** A file of exactly five MiB is still taken; one byte more is not. */
  lemma FiveMiBBoundary()
    ensures Eligible(5242880, "pdf") && !Eligible(5242881, "pdf")
  {
  }

  /** The LibGen client: a search result is an input here, and each download
      is recorded in order. */
  class Libgen {
    var downloads: seq<Item>

    constructor ()
      ensures downloads == []
    {
      downloads := [];
    }

    /** `lg.download(item["mirrors"]["main"], dest_folder=out_path)`. */
    method Download(item: Item)
      modifies this
      ensures downloads == old(downloads) + [item]
    {
      downloads := downloads + [item];
    }
  }

  /** The error when nothing was downloaded. */
  function NoGoodResult(keyword: string): string {
    "No good result for " + keyword
  }

  /** `load_documents`' loop over the hits: stop once `n` files were
      downloaded, skip a hit that is too large or not a PDF or EPUB, stop with
      a failure on a size that is not a number, else download it. */
  method Walk(lg: Libgen, hits: seq<Hit>, n: int) returns (dlN: nat, failed: bool)
    modifies lg
    ensures lg.downloads == old(lg.downloads) + SelectFrom(hits, n, 0, 0).downloaded
    ensures failed == SelectFrom(hits, n, 0, 0).failed
    ensures dlN == |SelectFrom(hits, n, 0, 0).downloaded|
  {
    ghost var total := SelectFrom(hits, n, 0, 0);
    dlN := 0;
    var i := 0;
    while i < |hits|
      invariant 0 <= i <= |hits|
      invariant |lg.downloads| == |old(lg.downloads)| + dlN
      invariant lg.downloads + SelectFrom(hits, n, i, dlN).downloaded == old(lg.downloads) + total.downloaded
      invariant SelectFrom(hits, n, i, dlN).failed == total.failed
    {
      if dlN >= n {
        break;
      }
      var item := hits[i].item;
      var size := hits[i].size;
      if size.None? {
        return dlN, true;
      }
      if size.value > MaxDocSize {
        i := i + 1;
        continue;
      }
      if item.extension != "pdf" && item.extension != "epub" {
        i := i + 1;
        continue;
      }
      ghost var rest := SelectFrom(hits, n, i + 1, dlN + 1);
      assert SelectFrom(hits, n, i, dlN).downloaded == [item] + rest.downloaded;
      ghost var before := lg.downloads;
      lg.Download(item);
      assert lg.downloads + rest.downloaded == before + ([item] + rest.downloaded);
      dlN := dlN + 1;
      i := i + 1;
    }
    assert SelectFrom(hits, n, i, dlN) == Selection([], false);
    failed := false;
  }

  /** `load_documents`: walk the search result, download at most `n` good
      hits, and raise when a size is not a number or nothing was downloaded;
      otherwise the number of files downloaded, which the source prints as
      `Got {dl_N} files` and does not return. */
  method LoadDocuments(lg: Libgen, keyword: string, n: int, result: seq<Item>) returns (r: Result<nat>)
    modifies lg
    ensures lg.downloads == old(lg.downloads) + Selected(result, n).downloaded
    ensures var s := Selected(result, n);
      && (s.failed ==> r == Failure("ValueError"))
      && (!s.failed && s.downloaded == [] ==> r == Failure(NoGoodResult(keyword)))
      && (!s.failed && s.downloaded != [] ==> r == Success(|s.downloaded|))
    ensures n <= 0 ==> r == Failure(NoGoodResult(keyword))
  {
    SelectedBound(result, n);
    var hits := Read(result);
    var dlN, failed := Walk(lg, hits, n);
    if failed {
      return Failure("ValueError");
    }
    if dlN == 0 {
      return Failure(NoGoodResult(keyword));
    }
    r := Success(dlN);
  }
}
