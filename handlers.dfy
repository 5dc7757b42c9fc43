/** The twelve `on_<callback>_<tier>` handlers: each prints one console line, and the
    two `none` handlers for creation and deletion also write an info-level log record. */
module Handlers {
  import opened Policy
  import opened Text

  /** The four callback slots of a watchdog event handler. */
  datatype Callback = OnCreated | OnDeleted | OnModified | OnMoved

  /** The parts of a filesystem event the handlers print; `dest` is read only for moves. */
  datatype FsEvent = FsEvent(src: string, dest: string)

  /** What one handler call does: one console line and at most one log record. */
  datatype Effect = Effect(console: string, log: Option<string>)

  /** The log text of `on_created_none`: the call lacks the `f` prefix, so the
      placeholder is written literally instead of the event's path. */
  const UnformattedCreateLog: string := "none event create: {event.src_path}"

  /** The word after "<tier> event ", with its separator; the critical handlers use
      past-tense words and `on_deleted_critical` puts a space before the colon. */
  function CallbackWord(t: Tier, c: Callback): string
  {
    match (t, c)
    case (CriticalTier, OnCreated) => "created: "
    case (CriticalTier, OnDeleted) => "deleted : "
    case (_, OnCreated) => "create: "
    case (_, OnDeleted) => "delete: "
    case (_, OnModified) => "modified: "
    case (_, OnMoved) => "moved: "
  }

  /** The event paths a handler prints after its prefix. */
  function Subject(c: Callback, ev: FsEvent): string
  {
    if c == OnMoved then ev.src + " to " + ev.dest else ev.src
  }

  /** Every handler line starts with the tier's policy token. */
  function Banner(t: Tier): string
  {
    TierToken(t) + " event "
  }

  /** The handler called for callback `c` when tier `t` was chosen for it. */
  function Handle(t: Tier, c: Callback, ev: FsEvent): (r: Effect)
    ensures HasPrefix(r.console, Banner(t))
    ensures |r.console| >= |Subject(c, ev)| && r.console[|r.console| - |Subject(c, ev)|..] == Subject(c, ev)
    ensures r.log.Some? <==> t == NoneTier && (c == OnCreated || c == OnDeleted)
    ensures c == OnDeleted && r.log.Some? ==> r.log.value == r.console
    ensures c == OnCreated && r.log.Some? ==> r.log.value == UnformattedCreateLog
  {
    var line := Banner(t) + (CallbackWord(t, c) + Subject(c, ev));
    PrefixOfAppend(Banner(t), CallbackWord(t, c) + Subject(c, ev));
    assert line == (Banner(t) + CallbackWord(t, c)) + Subject(c, ev);
    PrefixOfAppend(Banner(t) + CallbackWord(t, c), Subject(c, ev));
    var log :=
      if t == NoneTier && c == OnCreated then Some(UnformattedCreateLog)
      else if t == NoneTier && c == OnDeleted then Some(line)
      else None;
    Effect(line, log)
  }

  /** Reads back which handler printed a console line. */
  function ParseLine(line: string): Option<(Tier, Callback)>
  {
    if HasPrefix(line, Banner(NoneTier)) then ParseCallback(NoneTier, line[|Banner(NoneTier)|..])
    else if HasPrefix(line, Banner(WarnTier)) then ParseCallback(WarnTier, line[|Banner(WarnTier)|..])
    else if HasPrefix(line, Banner(CriticalTier)) then ParseCallback(CriticalTier, line[|Banner(CriticalTier)|..])
    else None
  }

  function ParseCallback(t: Tier, rest: string): Option<(Tier, Callback)>
  {
    if HasPrefix(rest, CallbackWord(t, OnCreated)) then Some((t, OnCreated))
    else if HasPrefix(rest, CallbackWord(t, OnDeleted)) then Some((t, OnDeleted))
    else if HasPrefix(rest, CallbackWord(t, OnModified)) then Some((t, OnModified))
    else if HasPrefix(rest, CallbackWord(t, OnMoved)) then Some((t, OnMoved))
    else None
  }

  lemma ParseCallbackWord(t: Tier, c: Callback, s: string)
    ensures ParseCallback(t, CallbackWord(t, c) + s) == Some((t, c))
  {
    var w := CallbackWord(t, c);
    PrefixOfAppend(w, s);
    var rest := w + s;
    assert rest[0] == w[0] && rest[1] == w[1] && rest[2] == w[2];
  }

  /** Reading a line back first recognises the tier's banner. */
  lemma ParseBanner(t: Tier, rest: string)
    ensures ParseLine(Banner(t) + rest) == ParseCallback(t, rest)
  {
    var line := Banner(t) + rest;
    PrefixOfAppend(Banner(t), rest);
    assert line[0] == Banner(t)[0];
    match t
    case NoneTier =>
    case WarnTier =>
      assert !HasPrefix(line, Banner(NoneTier));
    case CriticalTier =>
      assert !HasPrefix(line, Banner(NoneTier));
      assert !HasPrefix(line, Banner(WarnTier));
  }

  /** The console line identifies the tier and callback of the handler that printed it,
      so the twelve handlers never print the same line. */
  lemma {:induction false} HandleParses(t: Tier, c: Callback, ev: FsEvent)
    ensures ParseLine(Handle(t, c, ev).console) == Some((t, c))
  {
    var tail := CallbackWord(t, c) + Subject(c, ev);
    assert Handle(t, c, ev).console == Banner(t) + tail;
    ParseBanner(t, tail);
    ParseCallbackWord(t, c, Subject(c, ev));
  }

  lemma HandleInjective(t1: Tier, c1: Callback, t2: Tier, c2: Callback, ev: FsEvent)
    requires Handle(t1, c1, ev).console == Handle(t2, c2, ev).console
    ensures t1 == t2 && c1 == c2
  {
    HandleParses(t1, c1, ev);
    HandleParses(t2, c2, ev);
  }

  /** The log record of `on_created_none` does not depend on the event at all. */
  lemma CreateLogIgnoresEvent(ev1: FsEvent, ev2: FsEvent)
    ensures Handle(NoneTier, OnCreated, ev1).log == Handle(NoneTier, OnCreated, ev2).log
  {
  }
}
