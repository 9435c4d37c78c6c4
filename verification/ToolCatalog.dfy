// The catalog's objects and the methods that change them under its mutex: each
// does what the corresponding step of the catalog specifies.

module ToolCatalog {

  import opened Wrappers
  import opened Catalog
  import opened Channels

  /** What the catalog knows between two invalidations. */
  class CatalogGeneration {
    var tools: map<string, Entry>
    var walking: Channel?
    var walkedAt: Option<nat>

    constructor ()
      ensures tools == map[] && walking == null && walkedAt == None
    {
      tools, walking, walkedAt := map[], null, None;
    }
  }

  /** The tools of one tools/list result; of two with one name the later counts. */
  function PageOf(tools: seq<(string, Info)>): map<string, Info> {
    if |tools| == 0 then map[] else PageOf(tools[..|tools| - 1])[tools[|tools| - 1].0 := tools[|tools| - 1].1]
  }

  lemma LearnedStep(
      tools: map<string, Entry>, page: map<string, Info>, name: string, info: Info, clock: nat, takenAt: nat)
    ensures Learned(tools, page[name := info], clock, takenAt)
         == Learned(tools, page, clock, takenAt)[name := Entry(info, clock, takenAt)]
  {
  }

  /** How a tools/list through the inner handler comes out. */
  datatype PageAnswer = Fails | Lists(tools: seq<(string, Info)>, more: bool)

  /** The pages a walk learns from page i on, and whether it reached the last page or the cap. */
  function WalkPages(next: nat -> PageAnswer, i: nat): (r: (seq<seq<(string, Info)>>, bool))
    requires i <= MAX_LISTING_PAGES
    ensures |r.0| <= MAX_LISTING_PAGES - i
    decreases MAX_LISTING_PAGES - i
  {
    if i == MAX_LISTING_PAGES then ([], true)
    else match next(i)
         case Fails => ([], false)
         case Lists(tools, more) =>
           if !more then ([tools], true)
           else var rest := WalkPages(next, i + 1); ([tools] + rest.0, rest.1)
  }

  function LearnedAll(
      tools: map<string, Entry>, pages: seq<seq<(string, Info)>>, clock: nat, takenAt: nat): map<string, Entry>
    decreases |pages|
  {
    if |pages| == 0 then tools
    else LearnedAll(Learned(tools, PageOf(pages[0]), clock, takenAt), pages[1..], clock, takenAt)
  }

  class ToolCatalog {
    var current: CatalogGeneration

    constructor ()
      ensures fresh(current) && current.tools == map[] && current.walking == null && current.walkedAt == None
    {
      current := new CatalogGeneration();
    }

    method Invalidate()
      modifies this
      ensures fresh(current) && current.tools == map[] && current.walking == null && current.walkedAt == None
    {
      current := new CatalogGeneration();
    }

    /** advertise: an invalidated generation is left as it is. */
    method Advertise(gen: CatalogGeneration, tools: seq<(string, Info)>, clock: nat, takenAt: nat)
      modifies gen`tools
      ensures gen.tools == if gen == current then Learned(old(gen.tools), PageOf(tools), clock, takenAt) else old(gen.tools)
    {
      if gen == current {
        var i := 0;
        while i < |tools|
          invariant i <= |tools|
          invariant gen.tools == Learned(old(gen.tools), PageOf(tools[..i]), clock, takenAt)
        {
          LearnedStep(old(gen.tools), PageOf(tools[..i]), tools[i].0, tools[i].1, clock, takenAt);
          assert tools[..i + 1][..i] == tools[..i];
          gen.tools := gen.tools[tools[i].0 := Entry(tools[i].1, clock, takenAt)];
          i := i + 1;
        }
        assert tools[..i] == tools;
      }
    }

    /** The generation as the steps of the catalog see it; `channel` stands for that of its walk. */
    ghost function View(gen: CatalogGeneration, bornAt: nat, channel: nat): Generation
      reads gen
    {
      Generation(bornAt, gen.tools, if gen.walking == null then None else Some(channel), gen.walkedAt)
    }

    /**
     * The first critical section of lookupIn: answered at once, or leading a new walk, or waiting
     * for the one that runs.
     */
    method LookUp(name: string, session: bool, clock: nat)
      returns (answer: Option<Entry>, gen: CatalogGeneration, known: bool, leads: bool, walking: Channel?)
      modifies current`walking
      ensures gen == old(current) && current == gen
      ensures known <==> Known(View(gen, 0, 0), name, clock) || !session
      ensures known ==> answer == Lookedup(View(gen, 0, 0), name) && gen.walking == old(gen.walking)
      ensures !known ==> walking == gen.walking && gen.walking != null && (leads <==> old(current.walking) == null)
      ensures !known && leads ==> fresh(gen.walking) && !gen.walking.closed
      ensures !known && !leads ==> gen.walking == old(gen.walking)
    {
      gen := current;
      answer := if name in gen.tools then Some(gen.tools[name]) else None;
      leads, walking := false, null;
      var trusted := name in gen.tools && clock - gen.tools[name].learnedAt < CATALOG_TTL;
      var missRemembered := gen.walkedAt.Some? && clock - gen.walkedAt.value < CATALOG_TTL;
      known := trusted || missRemembered || !session;
      if !known {
        walking := gen.walking;
        leads := walking == null;
        if leads {
          walking := new Channel();
          gen.walking := walking;
        }
      }
    }

    /** The pages of a walk: up to the last one, the first that fails, or the cap. */
    method ListPages(gen: CatalogGeneration, next: nat -> PageAnswer, clock: nat, takenAt: nat)
      returns (pages: nat, finished: bool)
      modifies gen`tools
      ensures pages == |WalkPages(next, 0).0| <= MAX_LISTING_PAGES && finished == WalkPages(next, 0).1
      ensures gen.tools == if gen == current then LearnedAll(old(gen.tools), WalkPages(next, 0).0, clock, takenAt)
                           else old(gen.tools)
    {
      pages := 0;
      while pages < MAX_LISTING_PAGES
        invariant pages <= MAX_LISTING_PAGES
        invariant |WalkPages(next, 0).0| == pages + |WalkPages(next, pages).0|
        invariant WalkPages(next, 0).1 == WalkPages(next, pages).1
        invariant gen != current ==> gen.tools == old(gen.tools)
        invariant gen == current ==>
                    LearnedAll(old(gen.tools), WalkPages(next, 0).0, clock, takenAt)
                    == LearnedAll(gen.tools, WalkPages(next, pages).0, clock, takenAt)
      {
        var answer := next(pages);
        if answer.Fails? {
          return pages, false;
        }
        Advertise(gen, answer.tools, clock, takenAt);
        pages := pages + 1;
        if !answer.more {
          return pages, true;
        }
      }
      return pages, true;
    }

    /**
     * walk: lists at most the capped number of pages into its generation, then
     * ends the walk and closes its channel. A walk that fails leaves misses
     * unremembered, so that the next lookup walks again.
     */
    method Walk(gen: CatalogGeneration, walking: Channel, next: nat -> PageAnswer, clock: nat, takenAt: nat)
      returns (pages: nat, finished: bool)
      requires gen.walking == walking && !walking.closed
      modifies gen, walking
      ensures walking.closed && gen.walking == null
      ensures pages == |WalkPages(next, 0).0| <= MAX_LISTING_PAGES && finished == WalkPages(next, 0).1
      ensures gen.walkedAt == if finished then Some(clock) else old(gen.walkedAt)
      ensures gen.tools == if gen == current then LearnedAll(old(gen.tools), WalkPages(next, 0).0, clock, takenAt)
                           else old(gen.tools)
    {
      pages, finished := ListPages(gen, next, clock, takenAt);
      gen.walking := null;
      if finished {
        gen.walkedAt := Some(clock);
      }
      walking.Close();
    }
  }
}
