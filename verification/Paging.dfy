/** Reading a directory page by page, through the namespace's sink and through the adapter's reply. */
module Paging {
  import opened Wrappers
  import opened FlatNamespace

  // ---------------------------------------------------------------- sinks

  /** What a sink that held `pushed` holds after being fed `rest` until it says stop. The
      entry on which it says stop has been taken. */
  function Feed(goOn: seq<Entry> -> bool, pushed: seq<Entry>, rest: seq<Entry>): seq<Entry>
    decreases |rest|
  {
    if rest == [] then pushed
    else
      var now := pushed + [rest[0]];
      if goOn(now) then Feed(goOn, now, rest[1..]) else now
  }

  /** A directory sink: `goOn` decides from the entries taken so far whether it wants more. */
  class DirSink {
    const goOn: seq<Entry> -> bool
    var entries: seq<Entry>

    constructor (goOn: seq<Entry> -> bool)
      ensures this.goOn == goOn && entries == []
    {
      this.goOn, entries := goOn, [];
    }

    method Push(e: Entry) returns (more: bool)
      modifies this
      ensures entries == old(entries) + [e] && more == goOn(entries)
    {
      entries := entries + [e];
      more := goOn(entries);
    }
  }

  /** A sink that never says stop. */
  ghost predicate Tireless(goOn: seq<Entry> -> bool) {
    forall es :: goOn(es)
  }

  lemma {:induction false} TirelessTakesAll(goOn: seq<Entry> -> bool, pushed: seq<Entry>, rest: seq<Entry>)
    requires Tireless(goOn)
    ensures Feed(goOn, pushed, rest) == pushed + rest
    decreases |rest|
  {
    if rest != [] {
      TirelessTakesAll(goOn, pushed + [rest[0]], rest[1..]);
      assert pushed + rest == pushed + [rest[0]] + rest[1..];
    }
  }

  /** It is left with exactly the listed entries whose cookies are larger than the offset. */
  lemma TirelessSinkTakesRest(ns: Namespace, dir: nat, offset: nat, goOn: seq<Entry> -> bool, pushed: seq<Entry>)
    requires Listing(ns, dir).Some? && Tireless(goOn)
    ensures
      var listing := Listing(ns, dir).value;
      var taken := Feed(goOn, pushed, After(listing, offset));
      pushed <= taken && forall e :: e in taken[|pushed|..] <==> e in listing && e.cookie > offset
  {
    var listing := Listing(ns, dir).value;
    TirelessTakesAll(goOn, pushed, After(listing, offset));
    assert (pushed + After(listing, offset))[|pushed|..] == After(listing, offset);
    forall e ensures e in After(listing, offset) <==> e in listing && e.cookie > offset {
      CutByCookie(ns, dir, offset, e);
    }
  }

  /** A sink takes what is offered in order: it went on after each entry but the last, and if
      something is left over, it said stop at that one. */
  lemma {:induction false} FeedUntilStop(goOn: seq<Entry> -> bool, pushed: seq<Entry>, rest: seq<Entry>)
    ensures
      var k := |Feed(goOn, pushed, rest)| - |pushed|;
      && 0 <= k <= |rest| && Feed(goOn, pushed, rest) == pushed + rest[..k]
      && (forall j | 0 < j < k :: goOn(pushed + rest[..j]))
      && (k < |rest| ==> k > 0 && !goOn(pushed + rest[..k]))
    decreases |rest|
  {
    if rest != [] {
      var now := pushed + [rest[0]];
      assert rest[..1] == [rest[0]];
      if goOn(now) {
        FeedUntilStop(goOn, now, rest[1..]);
        forall j | 0 <= j <= |rest[1..]| ensures now + rest[1..][..j] == pushed + rest[..j + 1] {
          assert rest[..j + 1] == [rest[0]] + rest[1..][..j];
        }
        var k := |Feed(goOn, now, rest[1..])| - |now|;
        forall j | 1 < j < k + 1 ensures goOn(pushed + rest[..j]) {
          assert now + rest[1..][..j - 1] == pushed + rest[..j - 1 + 1];
        }
      }
    }
  }

  /** `readdir` of the namespace. */
  method Readdir(ns: Namespace, ino: nat, offset: nat, sink: DirSink) returns (ok: bool)
    modifies sink
    ensures ok <==> Listing(ns, ino).Some?
    ensures ok <==> ino == 1 || ino == 2
    ensures ok ==>
      var listing := Listing(ns, ino).value;
      var rest := if offset <= |listing| then listing[offset..] else [];
      var k := |sink.entries| - |old(sink.entries)|;
      && 0 <= k <= |rest| && sink.entries == old(sink.entries) + rest[..k]
      && (forall j | 0 < j < k :: sink.goOn(old(sink.entries) + rest[..j]))
      && (k < |rest| ==> k > 0 && !sink.goOn(sink.entries))
    ensures sink.entries ==
            if ok then Feed(sink.goOn, old(sink.entries), After(Listing(ns, ino).value, offset))
            else old(sink.entries)
    ensures ok && Tireless(sink.goOn) ==>
      && old(sink.entries) <= sink.entries
      && forall e :: e in sink.entries[|old(sink.entries)|..] <==> e in Listing(ns, ino).value && e.cookie > offset
  {
    if Listing(ns, ino).Some? {
      FeedUntilStop(sink.goOn, sink.entries, After(Listing(ns, ino).value, offset));
    }
    if Listing(ns, ino).Some? && Tireless(sink.goOn) {
      TirelessSinkTakesRest(ns, ino, offset, sink.goOn, sink.entries);
    }
    if ino == ROOT_INO {
      ReaddirRoot(ns, offset, sink);
      return true;
    } else if ino == OBJECTS_INO {
      ReaddirObjects(ns, offset, sink);
      return true;
    }
    return false;
  }

  method ReaddirRoot(ns: Namespace, offset: nat, sink: DirSink)
    modifies sink
    ensures sink.entries == Feed(sink.goOn, old(sink.entries), After(Listing(ns, ROOT_INO).value, offset))
  {
    var entries := [Entry(ROOT_INO, 1, Dir, "."), Entry(ROOT_INO, 2, Dir, ".."), Entry(OBJECTS_INO, 3, Dir, "objects")];
    for i := 0 to 3
      invariant Feed(sink.goOn, old(sink.entries), After(entries, offset)) ==
                Feed(sink.goOn, sink.entries, After(entries, if offset <= i then i else offset))
    {
      if entries[i].cookie <= offset {
        continue;
      }
      assert After(entries, i)[0] == entries[i] && After(entries, i)[1..] == After(entries, i + 1);
      var more := sink.Push(entries[i]);
      if !more {
        return;
      }
    }
  }

  method ReaddirObjects(ns: Namespace, offset: nat, sink: DirSink)
    modifies sink
    ensures sink.entries == Feed(sink.goOn, old(sink.entries), After(Listing(ns, OBJECTS_INO).value, offset))
  {
    ghost var listing := Listing(ns, OBJECTS_INO).value;
    ghost var target := Feed(sink.goOn, sink.entries, After(listing, offset));
    if 1 > offset {
      assert After(listing, 0)[0] == listing[0] && After(listing, 0)[1..] == After(listing, 1);
      var more := sink.Push(Entry(OBJECTS_INO, 1, Dir, "."));
      if !more {
        return;
      }
    }
    assert target == Feed(sink.goOn, sink.entries, After(listing, if 1 > offset then 1 else offset));
    if 2 > offset {
      assert After(listing, 1)[0] == listing[1] && After(listing, 1)[1..] == After(listing, 2);
      var more := sink.Push(Entry(ROOT_INO, 2, Dir, ".."));
      if !more {
        return;
      }
    }
    assert target == Feed(sink.goOn, sink.entries, After(listing, if 2 > offset then 2 else offset));
    var n := if offset >= 2 then offset - 2 else 0;
    while n < ns.inodeCount
      invariant target == Feed(sink.goOn, sink.entries, After(listing, n + 2))
    {
      assert After(listing, n + 2)[0] == FileEntry(n) && After(listing, n + 2)[1..] == After(listing, n + 3);
      var more := sink.Push(FileEntry(n));
      if !more {
        return;
      }
      n := n + 1;
    }
    assert After(listing, n + 2) == [];
  }

  // ---------------------------------------------------------------- the adapter's reply

  /** What the reply buffer holds after `rest` was offered until an entry did not fit. */
  function Fill(fits: (seq<Entry>, Entry) -> bool, held: seq<Entry>, rest: seq<Entry>): seq<Entry>
    decreases |rest|
  {
    if rest == [] || !fits(held, rest[0]) then held else Fill(fits, held + [rest[0]], rest[1..])
  }

  /** A reply takes what is offered in order: every entry taken fitted, and the first one left over did not. */
  lemma {:induction false} FillUntilFull(fits: (seq<Entry>, Entry) -> bool, held: seq<Entry>, rest: seq<Entry>)
    ensures
      var k := |Fill(fits, held, rest)| - |held|;
      && 0 <= k <= |rest| && Fill(fits, held, rest) == held + rest[..k]
      && (forall j | 0 <= j < k :: fits(held + rest[..j], rest[j]))
      && (k < |rest| ==> !fits(held + rest[..k], rest[k]))
    decreases |rest|
  {
    assert held + rest[..0] == held;
    if rest != [] && fits(held, rest[0]) {
      var now := held + [rest[0]];
      FillUntilFull(fits, now, rest[1..]);
      forall j | 0 <= j <= |rest[1..]| ensures now + rest[1..][..j] == held + rest[..j + 1] {
        assert rest[..j + 1] == [rest[0]] + rest[1..][..j];
      }
      var k := |Fill(fits, now, rest[1..])| - |now|;
      forall j | 1 <= j < k + 1 ensures fits(held + rest[..j], rest[j]) {
        assert now + rest[1..][..j - 1] == held + rest[..j - 1 + 1];
      }
    }
  }

  lemma FillsReply(fits: (seq<Entry>, Entry) -> bool, rest: seq<Entry>)
    ensures
      var reply := Fill(fits, [], rest);
      && reply <= rest
      && (forall j | 0 <= j < |reply| :: fits(rest[..j], rest[j]))
      && (reply != rest ==> |reply| < |rest| && !fits(reply, rest[|reply|]))
  {
    FillUntilFull(fits, [], rest);
    var k := |Fill(fits, [], rest)|;
    assert [] + rest[..k] == rest[..k];
    if k == |rest| {
      assert rest[..k] == rest;
    }
    forall j | 0 <= j < k ensures fits(rest[..j], rest[j]) {
      assert [] + rest[..j] == rest[..j];
    }
  }

  /** The adapter's `readdir`: collect everything, then add to the reply until it is full. */
  method FuseReaddir(ns: Namespace, ino: nat, offset: nat, fits: (seq<Entry>, Entry) -> bool)
    returns (reply: Option<seq<Entry>>)
    ensures reply.Some? <==> Listing(ns, ino).Some?
    ensures reply.Some? ==> reply.value == Fill(fits, [], After(Listing(ns, ino).value, offset))
    ensures reply.Some? ==>
      var listing := Listing(ns, ino).value;
      var rest := if offset <= |listing| then listing[offset..] else [];
      && reply.value <= rest
      && (forall j | 0 <= j < |reply.value| :: fits(rest[..j], rest[j]))
      && (reply.value != rest ==> !fits(reply.value, rest[|reply.value|]))
  {
    var collector := new DirSink(_ => true);
    var ok := Readdir(ns, ino, offset, collector);
    if !ok {
      return None;
    }
    ghost var all := After(Listing(ns, ino).value, offset);
    TirelessTakesAll(collector.goOn, [], all);
    var entries := collector.entries;
    assert entries == all;
    FillsReply(fits, entries);
    var held := FillReply(entries, fits);
    return Some(held);
  }

  method FillReply(entries: seq<Entry>, fits: (seq<Entry>, Entry) -> bool) returns (held: seq<Entry>)
    ensures held == Fill(fits, [], entries)
  {
    held := [];
    for i := 0 to |entries|
      invariant Fill(fits, [], entries) == Fill(fits, held, entries[i..])
    {
      assert entries[i..][1..] == entries[i + 1..];
      if !fits(held, entries[i]) {
        return;
      }
      held := held + [entries[i]];
    }
  }

  // ---------------------------------------------------------------- paging

  /** A page shows a first part of what is left, and shows something if anything is left. */
  ghost predicate IsPage(page: seq<Entry>, rest: seq<Entry>) {
    page <= rest && (rest != [] ==> page != [])
  }

  /** Where the reader resumes: behind the last entry it received. */
  function Resume(offset: nat, page: seq<Entry>): nat {
    if page == [] then offset else page[|page| - 1].cookie
  }

  /** A sequence of pages, each read from where the previous one ended. */
  ghost predicate IsPaging(listing: seq<Entry>, offset: nat, pages: seq<seq<Entry>>)
    decreases |pages|
  {
    pages != [] ==>
      IsPage(pages[0], After(listing, offset)) && IsPaging(listing, Resume(offset, pages[0]), pages[1..])
  }

  function Flatten(pages: seq<seq<Entry>>): seq<Entry> {
    if pages == [] then [] else pages[0] + Flatten(pages[1..])
  }

  /** Resuming behind a page leaves exactly what the page did not show. */
  lemma ResumeBehindPage(listing: seq<Entry>, offset: nat, page: seq<Entry>)
    requires CookiesCountEntries(listing) && IsPage(page, After(listing, offset))
    ensures After(listing, offset) == page + After(listing, Resume(offset, page))
  {
    if page != [] {
      var k := |page| - 1;
      assert page[k] == After(listing, offset)[k] == listing[offset + k];
      assert After(listing, offset)[k + 1..] == After(listing, offset + k + 1);
    }
  }

  lemma {:induction false} PagesAddUp(listing: seq<Entry>, offset: nat, pages: seq<seq<Entry>>)
    requires CookiesCountEntries(listing) && IsPaging(listing, offset, pages)
    ensures
      var rest := After(listing, offset);
      && Flatten(pages) <= rest
      && (|pages| >= |rest| ==> Flatten(pages) == rest)
      && (forall i | 0 <= i < |pages| && pages[i] == [] :: Flatten(pages) == rest)
    decreases |pages|
  {
    if pages != [] {
      PagesAddUp(listing, Resume(offset, pages[0]), pages[1..]);
      ResumeBehindPage(listing, offset, pages[0]);
      assert forall i | 0 < i < |pages| :: pages[i] == pages[1..][i - 1];
    }
  }

  /** However a reader's pages are cut, what it has received after any number of pages is a first
      part of the listing, each entry once and in order; it is complete as soon as some page is
      empty, and at the latest after as many pages as there are entries. */
  lemma PagingIsComplete(ns: Namespace, dir: nat, pages: seq<seq<Entry>>)
    requires Listing(ns, dir).Some? && IsPaging(Listing(ns, dir).value, 0, pages)
    ensures Flatten(pages) <= Listing(ns, dir).value
    ensures |pages| >= |Listing(ns, dir).value| || [] in pages ==> Flatten(pages) == Listing(ns, dir).value
  {
    CookiesCount(ns, dir);
    PagesAddUp(Listing(ns, dir).value, 0, pages);
    assert After(Listing(ns, dir).value, 0) == Listing(ns, dir).value;
  }

  /** Every fresh sink of the namespace yields a page, of at least one entry. */
  lemma {:induction false} SinkGivesPage(goOn: seq<Entry> -> bool, pushed: seq<Entry>, rest: seq<Entry>)
    ensures pushed <= Feed(goOn, pushed, rest) && IsPage(Feed(goOn, pushed, rest)[|pushed|..], rest)
    decreases |rest|
  {
    if rest != [] {
      var now := pushed + [rest[0]];
      SinkGivesPage(goOn, now, rest[1..]);
      if goOn(now) {
        var f := Feed(goOn, now, rest[1..]);
        assert f[|pushed|..] == [rest[0]] + f[|now|..];
      }
    }
  }

  /** A reply buffer with room for at least one entry yields a page. */
  lemma {:induction false} ReplyGivesPage(fits: (seq<Entry>, Entry) -> bool, held: seq<Entry>, rest: seq<Entry>)
    ensures held <= Fill(fits, held, rest) && Fill(fits, held, rest)[|held|..] <= rest
    ensures rest != [] && fits(held, rest[0]) ==> IsPage(Fill(fits, held, rest)[|held|..], rest)
    decreases |rest|
  {
    if rest != [] && fits(held, rest[0]) {
      var now := held + [rest[0]];
      ReplyGivesPage(fits, now, rest[1..]);
      var f := Fill(fits, now, rest[1..]);
      assert f[|held|..] == [rest[0]] + f[|now|..];
    }
  }

  // ---------------------------------------------------------------- whole directories

  /** Where a reader stands after its pages. */
  function ResumeAfter(offset: nat, pages: seq<seq<Entry>>): nat
    decreases |pages|
  {
    if pages == [] then offset else ResumeAfter(Resume(offset, pages[0]), pages[1..])
  }

  lemma {:induction false} OneMorePage(listing: seq<Entry>, offset: nat, pages: seq<seq<Entry>>, page: seq<Entry>)
    requires IsPaging(listing, offset, pages) && IsPage(page, After(listing, ResumeAfter(offset, pages)))
    ensures IsPaging(listing, offset, pages + [page])
    ensures ResumeAfter(offset, pages + [page]) == Resume(ResumeAfter(offset, pages), page)
    decreases |pages|
  {
    if pages == [] {
      assert (pages + [page])[1..] == [];
    } else {
      OneMorePage(listing, Resume(offset, pages[0]), pages[1..], page);
      assert (pages + [page])[1..] == pages[1..] + [page];
    }
  }

  /** The state of a reader that has received `pages` and resumes at `offset`. */
  ghost predicate ReadSoFar(ns: Namespace, dir: nat, pages: seq<seq<Entry>>, offset: nat) {
    && Listing(ns, dir).Some?
    && IsPaging(Listing(ns, dir).value, 0, pages) && offset == ResumeAfter(0, pages)
    && |pages| + |After(Listing(ns, dir).value, offset)| <= |Listing(ns, dir).value|
  }

  /** A page that is not empty brings the reader forward; an empty one tells that it has everything. */
  lemma PageReceived(ns: Namespace, dir: nat, pages: seq<seq<Entry>>, offset: nat, page: seq<Entry>)
    requires ReadSoFar(ns, dir, pages, offset) && IsPage(page, After(Listing(ns, dir).value, offset))
    ensures IsPaging(Listing(ns, dir).value, 0, pages + [page])
    ensures page == [] ==> Flatten(pages + [page]) == Listing(ns, dir).value
    ensures page != [] ==>
      var next := page[|page| - 1].cookie;
      && ReadSoFar(ns, dir, pages + [page], next)
      && |After(Listing(ns, dir).value, next)| < |After(Listing(ns, dir).value, offset)|
  {
    var listing := Listing(ns, dir).value;
    OneMorePage(listing, 0, pages, page);
    CookiesCount(ns, dir);
    ResumeBehindPage(listing, offset, page);
    if page == [] {
      assert (pages + [page])[|pages|] == [];
      PagingIsComplete(ns, dir, pages + [page]);
    }
  }

  /** One page through a fresh sink of the namespace, which may say stop whenever it likes. */
  method SinkPage(ns: Namespace, dir: nat, offset: nat, goOn: seq<Entry> -> bool) returns (page: Option<seq<Entry>>)
    ensures page.Some? <==> Listing(ns, dir).Some?
    ensures page.Some? ==> IsPage(page.value, After(Listing(ns, dir).value, offset))
  {
    var sink := new DirSink(goOn);
    var ok := Readdir(ns, dir, offset, sink);
    if !ok {
      return None;
    }
    SinkGivesPage(goOn, [], After(Listing(ns, dir).value, offset));
    assert sink.entries[0..] == sink.entries;
    page := Some(sink.entries);
  }

  /** One page through a reply of the adapter, which has room for one entry at least. */
  method ReplyPage(ns: Namespace, dir: nat, offset: nat, fits: (seq<Entry>, Entry) -> bool)
    returns (page: Option<seq<Entry>>)
    requires forall e :: fits([], e)
    ensures page.Some? <==> Listing(ns, dir).Some?
    ensures page.Some? ==> IsPage(page.value, After(Listing(ns, dir).value, offset))
  {
    page := FuseReaddir(ns, dir, offset, fits);
    if page.Some? {
      ReplyGivesPage(fits, [], After(Listing(ns, dir).value, offset));
      assert page.value[0..] == page.value;
    }
  }

  /** Reads a directory to its end through the sinks of the namespace, each of which may say stop
      whenever it likes, resuming at the last cookie until a page is empty. The pages together are
      the listing, each entry once and in order; `None` means that it is not a directory. */
  method ReadThroughSinks(ns: Namespace, dir: nat, goOn: nat -> (seq<Entry> -> bool))
    returns (pages: Option<seq<seq<Entry>>>)
    ensures pages.Some? <==> Listing(ns, dir).Some?
    ensures pages.Some? ==>
      && Flatten(pages.value) == Listing(ns, dir).value && |pages.value| <= |Listing(ns, dir).value| + 1
  {
    var done: seq<seq<Entry>> := [];
    var offset := 0;
    while true
      invariant Listing(ns, dir).Some? ==> ReadSoFar(ns, dir, done, offset)
      decreases if Listing(ns, dir).Some? then |After(Listing(ns, dir).value, offset)| else 0
    {
      var page := SinkPage(ns, dir, offset, goOn(|done|));
      if page.None? {
        return None;
      }
      PageReceived(ns, dir, done, offset, page.value);
      done := done + [page.value];
      if page.value == [] {
        return Some(done);
      }
      offset := page.value[|page.value| - 1].cookie;
    }
  }

  /** The same through the replies of the adapter, each of which has room for one entry at least. */
  method ReadThroughReplies(ns: Namespace, dir: nat, fits: nat -> ((seq<Entry>, Entry) -> bool))
    returns (pages: Option<seq<seq<Entry>>>)
    requires forall i, e :: fits(i)([], e)
    ensures pages.Some? <==> Listing(ns, dir).Some?
    ensures pages.Some? ==>
      && Flatten(pages.value) == Listing(ns, dir).value && |pages.value| <= |Listing(ns, dir).value| + 1
  {
    var done: seq<seq<Entry>> := [];
    var offset := 0;
    while true
      invariant Listing(ns, dir).Some? ==> ReadSoFar(ns, dir, done, offset)
      decreases if Listing(ns, dir).Some? then |After(Listing(ns, dir).value, offset)| else 0
    {
      var page := ReplyPage(ns, dir, offset, fits(|done|));
      if page.None? {
        return None;
      }
      PageReceived(ns, dir, done, offset, page.value);
      done := done + [page.value];
      if page.value == [] {
        return Some(done);
      }
      offset := page.value[|page.value| - 1].cookie;
    }
  }
}
