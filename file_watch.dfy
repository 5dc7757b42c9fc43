/** The loop over the files policy: one pattern-matching event handler and one
    observer per entry, the handler's four callback slots chosen token by token. */
module FileWatch {
  import opened Policy
  import opened Handlers

  /** One entry of the files policy: its path, its `type`, and its four event tokens. */
  datatype FileEntry = FileEntry(entry: string, kind: string, create: string, delete: string, modified: string, move: string)

  /** The event types the loop visits, in the order it visits them. */
  datatype EventType = Create | Delete | Modified | Move

  const EventOrder: seq<EventType> := [Create, Delete, Modified, Move]

  function Token(f: FileEntry, e: EventType): string
  {
    match e
    case Create => f.create
    case Delete => f.delete
    case Modified => f.modified
    case Move => f.move
  }

  /** A callback slot: the library's do-nothing default, or the handler of one tier. */
  datatype Slot = Default | Tiered(tier: Tier)

  /** The four callback slots of one event handler. */
  datatype Table = Table(created: Slot, deleted: Slot, modified: Slot, moved: Slot)

  const DefaultTable := Table(Default, Default, Default, Default)

  function SlotOf(tbl: Table, c: Callback): Slot
  {
    match c
    case OnCreated => tbl.created
    case OnDeleted => tbl.deleted
    case OnModified => tbl.modified
    case OnMoved => tbl.moved
  }

  /** Which slots a recognised token of event type `e` is assigned to. The `else` of the
      chain belongs to the `modified` test alone, so every event type other than
      `modified` writes the moved slot too. */
  predicate Writes(e: EventType, c: Callback)
  {
    match c
    case OnCreated => e == Create
    case OnDeleted => e == Delete
    case OnModified => e == Modified
    case OnMoved => e != Modified
  }

  /** The slot a token selects on its own: its tier, or the default when unrecognised. */
  function SlotFor(token: string): Slot
  {
    match ParseTier(token)
    case Some(t) => Tiered(t)
    case None => Default
  }

  /** One pass of the inner loop: event type `e` with its token. */
  function Step(tbl: Table, e: EventType, token: string): (r: Table)
    ensures forall c :: SlotOf(r, c) == if Writes(e, c) && ParseTier(token).Some? then SlotFor(token) else SlotOf(tbl, c)
  {
    match ParseTier(token)
    case None => tbl
    case Some(t) =>
      var a := if e == Create then tbl.(created := Tiered(t)) else tbl;
      var b := if e == Delete then a.(deleted := Tiered(t)) else a;
      if e == Modified then b.(modified := Tiered(t)) else b.(moved := Tiered(t))
  }

  /** The `modified` token touches no slot but the modified one. */
  lemma ModifiedTouchesOnlyModified(tbl: Table, token: string)
    ensures Step(tbl, Modified, token).created == tbl.created
    ensures Step(tbl, Modified, token).deleted == tbl.deleted
    ensures Step(tbl, Modified, token).moved == tbl.moved
  {
  }

  /** The inner loop run over the event types `es`, starting from `tbl`: the created,
      deleted and modified slots keep their value when their own event type is absent. */
  function Apply(tbl: Table, f: FileEntry, es: seq<EventType>): (r: Table)
    ensures Create !in es ==> r.created == tbl.created
    ensures Delete !in es ==> r.deleted == tbl.deleted
    ensures Modified !in es ==> r.modified == tbl.modified
  {
    if es == [] then tbl
    else
      var init := Apply(tbl, f, es[..|es| - 1]);
      assert es == es[..|es| - 1] + [es[|es| - 1]];
      Step(init, es[|es| - 1], Token(f, es[|es| - 1]))
  }

  /** The inner loop over the four event types, unrolled. */
  lemma {:induction false} ApplyEventOrder(f: FileEntry)
    ensures Apply(DefaultTable, f, EventOrder)
         == Step(Step(Step(Step(DefaultTable, Create, f.create), Delete, f.delete), Modified, f.modified), Move, f.move)
  {
    assert EventOrder[..1][..0] == [] && EventOrder[..2][..1] == EventOrder[..1];
    assert EventOrder[..3][..2] == EventOrder[..2] && EventOrder[..3] == EventOrder[..4][..3];
    var t1 := Step(DefaultTable, Create, f.create);
    var t2 := Step(t1, Delete, f.delete);
    assert Apply(DefaultTable, f, EventOrder[..1]) == t1;
    assert Apply(DefaultTable, f, EventOrder[..2]) == t2;
    assert Apply(DefaultTable, f, EventOrder[..3]) == Step(t2, Modified, f.modified);
    assert EventOrder[..4] == EventOrder;
  }

  /** The callback table the loop leaves on the handler of entry `f`: the created, deleted
      and modified slots hold their own token's tier, or the default when it is unrecognised. */
  function Configure(f: FileEntry): (r: Table)
    ensures r.created == SlotFor(f.create)
    ensures r.deleted == SlotFor(f.delete)
    ensures r.modified == SlotFor(f.modified)
  {
    ApplyEventOrder(f);
    Apply(DefaultTable, f, EventOrder)
  }

  /** The slot of the last recognised token of `tokens`, or the default if none is. */
  function LastValid(tokens: seq<string>): Slot
  {
    if tokens == [] then Default
    else if ParseTier(tokens[|tokens| - 1]).Some? then SlotFor(tokens[|tokens| - 1])
    else LastValid(tokens[..|tokens| - 1])
  }

  lemma LastValidOfThree(a: string, b: string, c: string)
    ensures LastValid([a, b, c]) ==
              if ParseTier(c).Some? then SlotFor(c)
              else if ParseTier(b).Some? then SlotFor(b)
              else SlotFor(a)
  {
    var toks := [a, b, c];
    assert toks[..2] == [a, b] && [a, b][..1] == [a] && [a][..0] == [];
    assert LastValid([a]) == SlotFor(a);
  }

  /** The direct event-kind to tier table: each callback takes its own event's token. */
  function Lookup(f: FileEntry): Table
  {
    Table(SlotFor(f.create), SlotFor(f.delete), SlotFor(f.modified), SlotFor(f.move))
  }

  /** What the loop leaves in each slot; moved is the slot of the last recognised token of
      `create`, `delete` and `move`. */
  lemma ConfigureSlots(f: FileEntry)
    ensures Configure(f).created == SlotFor(f.create)
    ensures Configure(f).deleted == SlotFor(f.delete)
    ensures Configure(f).modified == SlotFor(f.modified)
    ensures Configure(f).moved == LastValid([f.create, f.delete, f.move])
  {
    ApplyEventOrder(f);
    var t1 := Step(DefaultTable, Create, f.create);
    var t2 := Step(t1, Delete, f.delete);
    var t3 := Step(t2, Modified, f.modified);
    LastValidOfThree(f.create, f.delete, f.move);
    assert SlotOf(t1, OnMoved) == SlotFor(f.create);
    assert SlotOf(t3, OnMoved) == SlotOf(t2, OnMoved);
  }

  /** With a recognised `move` token, the loop's table is the direct lookup table. */
  lemma {:induction false} MoveValidIsLookup(f: FileEntry)
    requires ParseTier(f.move).Some?
    ensures Configure(f) == Lookup(f)
  {
    ConfigureSlots(f);
  }

  /** With an unrecognised `move` token the direct lookup leaves the moved slot at the
      default, while the loop gives it the tier of a recognised `delete`, else of a
      recognised `create`; when neither is recognised it stays at the default too. */
  lemma {:induction false} MovedInheritsEarlierTier(f: FileEntry)
    requires ParseTier(f.move).None?
    ensures Lookup(f).moved == Default
    ensures Configure(f).moved == if ParseTier(f.delete).Some? then SlotFor(f.delete) else SlotFor(f.create)
  {
    ConfigureSlots(f);
    LastValidOfThree(f.create, f.delete, f.move);
  }

  /** The loop's table is the direct lookup table exactly when the `move` token is
      recognised or neither `create` nor `delete` is. */
  lemma {:induction false} ConfigureIsLookupIff(f: FileEntry)
    ensures Configure(f) == Lookup(f) <==>
              ParseTier(f.move).Some? || (ParseTier(f.create).None? && ParseTier(f.delete).None?)
  {
    ConfigureSlots(f);
    LastValidOfThree(f.create, f.delete, f.move);
  }

  // ---------------------------------------------------------------------------
  // Running a handler

  /** The handler response to an event, as routed through the handler's slots: a default
      slot does nothing, and a tiered slot prints a line that reads back as its tier and
      callback. */
  function Respond(tbl: Table, c: Callback, ev: FsEvent): (r: Option<Effect>)
    ensures r.Some? <==> SlotOf(tbl, c).Tiered?
    ensures r.Some? ==> ParseLine(r.value.console) == Some((SlotOf(tbl, c).tier, c))
  {
    match SlotOf(tbl, c)
    case Default => None
    case Tiered(t) =>
      HandleParses(t, c, ev);
      Some(Handle(t, c, ev))
  }

  function EventFor(c: Callback): EventType
  {
    match c
    case OnCreated => Create
    case OnDeleted => Delete
    case OnModified => Modified
    case OnMoved => Move
  }

  /** With a recognised `move` token, each callback answers with the handler of the tier
      its own token names (and prints a line that reads back as that tier), or not at all
      when its token is unrecognised. */
  lemma {:induction false} ConfiguredResponse(f: FileEntry, c: Callback, ev: FsEvent)
    requires ParseTier(f.move).Some?
    ensures Respond(Configure(f), c, ev).Some? <==> ParseTier(Token(f, EventFor(c))).Some?
    ensures ParseTier(Token(f, EventFor(c))).Some? ==>
              Respond(Configure(f), c, ev) == Some(Handle(ParseTier(Token(f, EventFor(c))).value, c, ev))
              && ParseLine(Respond(Configure(f), c, ev).value.console) == Some((ParseTier(Token(f, EventFor(c))).value, c))
  {
    var tbl := Configure(f);
    MoveValidIsLookup(f);
    assert SlotOf(tbl, c) == SlotFor(Token(f, EventFor(c))) by {
      assert tbl == Lookup(f);
      match c
      case OnCreated =>
      case OnDeleted =>
      case OnModified =>
      case OnMoved =>
    }
  }

  // ---------------------------------------------------------------------------
  // The mutable handler and the loop that builds it

  /** `type == 'dir'` watches recursively and reports directory events. */
  datatype Mode = Mode(recursive: bool, ignoreDirectories: bool)

  function WatchMode(kind: string): (m: Mode)
    ensures m.recursive <==> kind == "dir"
    ensures m.ignoreDirectories <==> !m.recursive
  {
    if kind == "dir" then Mode(true, false) else Mode(false, true)
  }

  /** A console line printed while the handlers are built. */
  datatype ConsoleLine =
    | HandlerTypeInvalid(token: string)  // print("handler type invalid: %s", token)
    | ObserverShown                      // print(new_observer)

  function Complaint(token: string): seq<ConsoleLine>
  {
    if ParseTier(token).Some? then [] else [HandlerTypeInvalid(token)]
  }

  function Complaints(f: FileEntry, es: seq<EventType>): (r: seq<ConsoleLine>)
    ensures |r| <= |es|
  {
    if es == [] then []
    else Complaints(f, es[..|es| - 1]) + Complaint(Token(f, es[|es| - 1]))
  }

  /** The entry's handler building prints nothing exactly when all four tokens are recognised,
      and otherwise one complaint per unrecognised token, in event order. */
  lemma {:induction false} ComplaintsOfEntry(f: FileEntry)
    ensures Complaints(f, EventOrder) == Complaint(f.create) + Complaint(f.delete) + Complaint(f.modified) + Complaint(f.move)
    ensures Complaints(f, EventOrder) == [] <==> forall e :: ParseTier(Token(f, e)).Some?
  {
    assert EventOrder[..3][..2][..1][..0] == [];
    assert EventOrder[..3][..2][..1] == [Create];
    assert EventOrder[..3][..2] == [Create, Delete];
    assert EventOrder[..3] == [Create, Delete, Modified];
    assert Complaints(f, [Create]) == Complaint(f.create);
    assert Complaints(f, [Create, Delete]) == Complaint(f.create) + Complaint(f.delete);
    assert Complaints(f, [Create, Delete, Modified]) == Complaint(f.create) + Complaint(f.delete) + Complaint(f.modified);
    assert EventOrder[..4] == EventOrder;
    assert forall e :: ParseTier(Token(f, e)).Some? <==> Complaint(Token(f, e)) == [];
  }

  /** watchdog's PatternMatchingEventHandler: the directory filter it was built with
      and its four callback slots. */
  class EventHandler {
    const ignoreDirectories: bool
    var onCreated: Slot
    var onDeleted: Slot
    var onModified: Slot
    var onMoved: Slot

    constructor (ignoreDirectories: bool)
      ensures this.ignoreDirectories == ignoreDirectories
      ensures Callbacks() == DefaultTable
    {
      this.ignoreDirectories := ignoreDirectories;
      onCreated, onDeleted, onModified, onMoved := Default, Default, Default, Default;
    }

    function Callbacks(): Table
      reads this
    {
      Table(onCreated, onDeleted, onModified, onMoved)
    }

    /** The body of the inner loop for one event type and its token. */
    method Assign(e: EventType, token: string) returns (out: seq<ConsoleLine>)
      modifies this
      ensures Callbacks() == Step(old(Callbacks()), e, token)
      ensures out == Complaint(token)
    {
      var tier: Tier;
      if token == "none" {
        tier := NoneTier;
      } else if token == "warn" {
        tier := WarnTier;
      } else if token == "critical" {
        tier := CriticalTier;
      } else {
        out := [HandlerTypeInvalid(token)];
        return;
      }
      if e == Create {
        onCreated := Tiered(tier);
      }
      if e == Delete {
        onDeleted := Tiered(tier);
      }
      if e == Modified {
        onModified := Tiered(tier);
      } else {
        onMoved := Tiered(tier);
      }
      out := [];
    }
  }

  /** An observer scheduled with one handler on one path. */
  datatype Observer = Observer(handler: EventHandler, path: string, recursive: bool)

  /** The handler of one file entry, built by the inner loop over the event types. */
  method BuildHandler(f: FileEntry) returns (h: EventHandler, out: seq<ConsoleLine>)
    ensures fresh(h)
    ensures h.ignoreDirectories == WatchMode(f.kind).ignoreDirectories
    ensures h.Callbacks() == Configure(f)
    ensures out == Complaints(f, EventOrder)
  {
    h := new EventHandler(WatchMode(f.kind).ignoreDirectories);
    out := [];
    for i := 0 to |EventOrder|
      invariant h.Callbacks() == Apply(DefaultTable, f, EventOrder[..i])
      invariant out == Complaints(f, EventOrder[..i])
    {
      var e := EventOrder[i];
      assert EventOrder[..i + 1][..i] == EventOrder[..i];
      var said := h.Assign(e, Token(f, e));
      out := out + said;
    }
    assert EventOrder[..|EventOrder|] == EventOrder;
  }

  /** The console output of the whole files loop: the complaints of each entry followed
      by the observer it scheduled, so the output ends with an observer line and holds
      between one and five lines per entry. */
  function FileConsole(files: seq<FileEntry>): (r: seq<ConsoleLine>)
    ensures |files| <= |r| <= 5 * |files|
    ensures files != [] ==> r[|r| - 1] == ObserverShown
  {
    if files == [] then []
    else FileConsole(files[..|files| - 1]) + Complaints(files[|files| - 1], EventOrder) + [ObserverShown]
  }

  /** The output of the first `n + 1` entries extends that of the first `n`. */
  lemma FileConsolePrefix(files: seq<FileEntry>, n: nat)
    requires n < |files|
    ensures FileConsole(files[..n + 1]) == FileConsole(files[..n]) + Complaints(files[n], EventOrder) + [ObserverShown]
  {
    assert files[..n + 1][..n] == files[..n];
  }

  /** Observer `o` is the one the outer loop schedules for entry `f`. */
  predicate ScheduledFor(o: Observer, f: FileEntry)
    reads o.handler
  {
    && o.path == f.entry
    && o.recursive == WatchMode(f.kind).recursive
    && o.handler.ignoreDirectories == WatchMode(f.kind).ignoreDirectories
    && o.handler.Callbacks() == Configure(f)
  }

  /** One pass of the outer loop: the observer scheduled for `f` and what building its
      handler printed. */
  method Schedule(f: FileEntry) returns (o: Observer, said: seq<ConsoleLine>)
    ensures fresh(o.handler)
    ensures ScheduledFor(o, f)
    ensures said == Complaints(f, EventOrder)
  {
    var h;
    h, said := BuildHandler(f);
    o := Observer(h, f.entry, WatchMode(f.kind).recursive);
  }

  /** The outer loop: one observer appended to `threads` per entry, in policy order. */
  method WatchFiles(files: seq<FileEntry>) returns (threads: seq<Observer>, out: seq<ConsoleLine>)
    ensures |threads| == |files|
    ensures forall i :: 0 <= i < |files| ==> ScheduledFor(threads[i], files[i])
    ensures forall i, j :: 0 <= i < j < |threads| ==> threads[i].handler != threads[j].handler
    ensures out == FileConsole(files)
  {
    threads, out := [], [];
    for n := 0 to |files|
      invariant |threads| == n
      invariant forall i :: 0 <= i < n ==> ScheduledFor(threads[i], files[i])
      invariant forall i, j :: 0 <= i < j < n ==> threads[i].handler != threads[j].handler
      invariant out == FileConsole(files[..n])
    {
      ghost var before := threads;
      var o, said := Schedule(files[n]);
      threads := threads + [o];
      forall i | 0 <= i <= n
        ensures ScheduledFor(threads[i], files[i])
      {
        if i < n {
          assert threads[i] == before[i] && ScheduledFor(before[i], files[i]);
        }
      }
      forall i, j | 0 <= i < j <= n
        ensures threads[i].handler != threads[j].handler
      {
        if j < n {
          assert threads[i] == before[i] && threads[j] == before[j];
        }
      }
      FileConsolePrefix(files, n);
      out := out + said + [ObserverShown];
    }
    assert files[..|files|] == files;
  }
}
