/** The `temporal` middleware of src/index.ts: how it picks the history store's creator and
    the recorder, and the two interceptors that wrap the host store's setter. */
module Zundo {
  import opened Wrappers

  /** What a user `diff` returns. The middleware only ever asks whether it is strictly `null`. */
  datatype Delta = Null | Undefined | Present

  /** The middleware's options. Every policy is optional, and the three decorating ones may
      answer with a falsy value. `H` is the type of the recorder, `C` that of a state creator. */
  datatype Options<!S, !H, !C> = Options(
    partialize: Option<S -> Option<S>>,
    equality: Option<(S, S) -> bool>,
    diff: Option<(S, S) -> Delta>,
    handleSet: Option<H -> Option<H>>,
    wrapTemporal: Option<C -> Option<C>>)

  /** `temporal(config)` without an options object: every `options?.x` is undefined. */
  function NoOptions<S, H, C>(): Options<S, H, C> {
    Options(None, None, None, None, None)
  }

  /** `hook?.(base) || base`: the hook's result when the hook is present and its result
      truthy, and the base otherwise. */
  function OrElse<T>(hook: Option<T -> Option<T>>, base: T): (r: T)
    ensures r == base || (hook.Some? && hook.value(base) == Some(r))
    ensures hook.Some? && hook.value(base).Some? ==> r == hook.value(base).value
  {
    if hook.Some? then hook.value(base).GetOr(base) else base
  }

  /** The snapshot the interceptors read: `options?.partialize?.(get()) || get()`. */
  function Snapshot<S, H, C>(opts: Options<S, H, C>, s: S): (r: S)
    ensures r == s || (opts.partialize.Some? && opts.partialize.value(s) == Some(r))
    ensures opts.partialize.Some? && opts.partialize.value(s).Some? ==> r == opts.partialize.value(s).value
  {
    OrElse(opts.partialize, s)
  }

  /** The creator the history store is built from:
      `options?.wrapTemporal?.(creator) || creator`. */
  function HistoryCreator<S, H, C>(opts: Options<S, H, C>, creator: C): (r: C)
    ensures r == creator || (opts.wrapTemporal.Some? && opts.wrapTemporal.value(creator) == Some(r))
    ensures opts.wrapTemporal.Some? && opts.wrapTemporal.value(creator).Some? ==> r == opts.wrapTemporal.value(creator).value
  {
    OrElse(opts.wrapTemporal, creator)
  }

  /** The recorder both interceptors call:
      `options?.handleSet?.(_handleSet) || _handleSet`. */
  function CurriedHandleSet<S, H, C>(opts: Options<S, H, C>, handleSet: H): (r: H)
    ensures r == handleSet || (opts.handleSet.Some? && opts.handleSet.value(handleSet) == Some(r))
    ensures opts.handleSet.Some? && opts.handleSet.value(handleSet).Some? ==> r == opts.handleSet.value(handleSet).value
  {
    OrElse(opts.handleSet, handleSet)
  }

  /** `options?.diff?.(past, current)`: `undefined` when no diff is configured. */
  function DeltaOf<S, H, C>(opts: Options<S, H, C>, past: S, current: S): Delta {
    if opts.diff.Some? then opts.diff.value(past, current) else Undefined
  }

  /** `options?.equality?.(past, current)`, read as a truth value. */
  function Equal<S, H, C>(opts: Options<S, H, C>, past: S, current: S): bool {
    opts.equality.Some? && opts.equality.value(past, current)
  }

  /** The change gate of the config-level `set`:
      record unless `equality(past, current) || deltaState === null`. */
  function ShouldRecord<S, H, C>(opts: Options<S, H, C>, past: S, current: S): (record: bool)
    // an equality that holds suppresses, whatever the diff says
    ensures opts.equality.Some? && opts.equality.value(past, current) ==> !record
    // a diff that answers a strict null suppresses
    ensures opts.diff.Some? && opts.diff.value(past, current).Null? ==> !record
    // nothing else does: an absent policy, a false equality, an `undefined` or non-null delta
    ensures ((opts.equality.None? || !opts.equality.value(past, current)) &&
             (opts.diff.None? || !opts.diff.value(past, current).Null?)) ==> record
  {
    !(Equal(opts, past, current) || DeltaOf(opts, past, current).Null?)
  }

  /** A call of one of the two wrapped setters, with the caller's arguments abstracted as
      the state transformer the host's own setter applies. */
  datatype Call<!S> = ViaConfig(upd: S -> S) | ViaSetState(upd: S -> S)

  /** The snapshots one wrapped call from state `s` hands to the recorder. */
  function StepRecords<S, H, C>(opts: Options<S, H, C>, s: S, c: Call<S>): (r: seq<S>)
    ensures |r| <= 1
    // only ever the snapshot read before the host's setter ran
    ensures forall x | x in r :: x == Snapshot(opts, s)
    // the `store.setState` path records on every call
    ensures c.ViaSetState? ==> r == [Snapshot(opts, s)]
    // the config-level path records exactly when its gate lets the pair through
    ensures c.ViaConfig? ==> (r != [] <==> ShouldRecord(opts, Snapshot(opts, s), Snapshot(opts, c.upd(s))))
  {
    match c
    case ViaSetState(_) => [Snapshot(opts, s)]
    case ViaConfig(upd) =>
      var past := Snapshot(opts, s);
      var current := Snapshot(opts, upd(s));
      if ShouldRecord(opts, past, current) then [past] else []
  }

  /** The host state after a sequence of wrapped calls from `s`. */
  function After<S>(s: S, calls: seq<Call<S>>): S
    decreases |calls|
  {
    if calls == [] then s else After(calls[0].upd(s), calls[1..])
  }

  /** Everything handed to the recorder during a sequence of wrapped calls from `s`. */
  function Records<S, H, C>(opts: Options<S, H, C>, s: S, calls: seq<Call<S>>): (r: seq<S>)
    ensures |r| <= |calls|
    decreases |calls|
  {
    if calls == [] then []
    else StepRecords(opts, s, calls[0]) + Records(opts, calls[0].upd(s), calls[1..])
  }

  /** One more call applies its transformer to the state reached so far. */
  lemma {:induction false} AfterSnoc<S>(s: S, h: seq<Call<S>>, c: Call<S>)
    ensures After(s, h + [c]) == c.upd(After(s, h))
    decreases |h|
  {
    if h == [] {
      assert h + [c] == [c];
    } else {
      assert (h + [c])[1..] == h[1..] + [c];
      AfterSnoc(h[0].upd(s), h[1..], c);
    }
  }

  /** One more call adds exactly its own step's records to the log. */
  lemma {:induction false} RecordsSnoc<S, H, C>(opts: Options<S, H, C>, s: S, h: seq<Call<S>>, c: Call<S>)
    ensures Records(opts, s, h + [c]) == Records(opts, s, h) + StepRecords(opts, After(s, h), c)
    decreases |h|
  {
    if h == [] {
      assert h + [c] == [c];
    } else {
      assert (h + [c])[1..] == h[1..] + [c];
      RecordsSnoc(opts, h[0].upd(s), h[1..], c);
    }
  }

  /** A call that records whatever the states: a `store.setState` call, or a config-level
      set when neither `equality` nor `diff` is configured. */
  predicate Ungated<S, H, C>(opts: Options<S, H, C>, c: Call<S>) {
    c.ViaSetState? || (opts.equality.None? && opts.diff.None?)
  }

  /** A run of ungated calls records exactly one snapshot per call, and the i-th is the
      snapshot of the state before the i-th call, even when a call changes nothing. */
  lemma {:induction false} UngatedRunRecordsEveryPreState<S, H, C>(opts: Options<S, H, C>, s: S, calls: seq<Call<S>>)
    requires forall i | 0 <= i < |calls| :: Ungated(opts, calls[i])
    ensures |Records(opts, s, calls)| == |calls|
    ensures forall i | 0 <= i < |calls| :: Records(opts, s, calls)[i] == Snapshot(opts, After(s, calls[..i]))
    decreases |calls|
  {
    if calls != [] {
      var c, rest := calls[0], calls[1..];
      assert Ungated(opts, c);
      UngatedRunRecordsEveryPreState(opts, c.upd(s), rest);
      assert StepRecords(opts, s, c) == [Snapshot(opts, s)];
      var r := Records(opts, s, calls);
      assert r == [Snapshot(opts, s)] + Records(opts, c.upd(s), rest);
      forall i | 0 <= i < |calls|
        ensures r[i] == Snapshot(opts, After(s, calls[..i]))
      {
        if i == 0 {
          assert calls[..0] == [];
        } else {
          assert calls[..i][1..] == rest[..i - 1];
          assert After(s, calls[..i]) == After(c.upd(s), rest[..i - 1]);
        }
      }
    }
  }

  /** `temporal(config)` without options records the full state from before every call. */
  lemma NoOptionsRecordsEveryPreState<S, H, C>(s: S, calls: seq<Call<S>>)
    ensures |Records(NoOptions<S, H, C>(), s, calls)| == |calls|
    ensures forall i | 0 <= i < |calls| :: Records(NoOptions<S, H, C>(), s, calls)[i] == After(s, calls[..i])
  {
    UngatedRunRecordsEveryPreState(NoOptions<S, H, C>(), s, calls);
  }

  /** A run of config-level sets in which `equality` holds on every call's own pair of
      before and after snapshots records nothing, whatever `diff` answers. */
  lemma {:induction false} EqualRunRecordsNothing<S, H, C>(opts: Options<S, H, C>, s: S, calls: seq<Call<S>>)
    requires opts.equality.Some?
    requires forall i | 0 <= i < |calls| ::
               calls[i].ViaConfig? &&
               opts.equality.value(Snapshot(opts, After(s, calls[..i])), Snapshot(opts, calls[i].upd(After(s, calls[..i]))))
    ensures Records(opts, s, calls) == []
    decreases |calls|
  {
    if calls != [] {
      var c, rest := calls[0], calls[1..];
      assert calls[..0] == [];
      assert StepRecords(opts, s, c) == [];
      forall i | 0 <= i < |rest|
        ensures rest[i].ViaConfig? &&
                opts.equality.value(Snapshot(opts, After(c.upd(s), rest[..i])), Snapshot(opts, rest[i].upd(After(c.upd(s), rest[..i]))))
      {
        assert calls[..i + 1][1..] == rest[..i];
        assert After(s, calls[..i + 1]) == After(c.upd(s), rest[..i]);
        assert calls[i + 1] == rest[i];
      }
      EqualRunRecordsNothing(opts, c.upd(s), rest);
    }
  }

  /** One observable step of an interceptor: a call of a user policy, of the host's own
      setter or of the recorder. */
  datatype Event<!S> =
    | Partialize(arg: S)
    | RawSet(upd: S -> S)
    | DiffCall(past: S, current: S)
    | EqualityCall(past: S, current: S)
    | Record(snapshot: S)

  /** The transformer of a call of the host's own setter, if `e` is one. */
  ghost function RawSetOf<S>(e: Event<S>): seq<S -> S> {
    if e.RawSet? then [e.upd] else []
  }

  /** The snapshot handed to the recorder, if `e` is a call of it. */
  ghost function RecordOf<S>(e: Event<S>): seq<S> {
    if e.Record? then [e.snapshot] else []
  }

  /** The transformers the host's own setter was called with, in order. */
  ghost function RawSets<S>(es: seq<Event<S>>): seq<S -> S>
    decreases |es|
  {
    if es == [] then [] else RawSetOf(es[0]) + RawSets(es[1..])
  }

  /** The snapshots the recorder was called with, in order. */
  ghost function Recorded<S>(es: seq<Event<S>>): seq<S>
    decreases |es|
  {
    if es == [] then [] else RecordOf(es[0]) + Recorded(es[1..])
  }

  /** The setter calls of two stretches of events, one after the other. */
  lemma {:induction false} RawSetsAppend<S>(a: seq<Event<S>>, b: seq<Event<S>>)
    ensures RawSets(a + b) == RawSets(a) + RawSets(b)
    decreases |a|
  {
    if a == [] {
      assert a + b == b;
    } else {
      assert (a + b)[0] == a[0];
      assert (a + b)[1..] == a[1..] + b;
      RawSetsAppend(a[1..], b);
      calc {
        RawSets(a + b);
        RawSetOf(a[0]) + RawSets(a[1..] + b);
        RawSetOf(a[0]) + (RawSets(a[1..]) + RawSets(b));
        (RawSetOf(a[0]) + RawSets(a[1..])) + RawSets(b);
      }
    }
  }

  /** The recorder calls of two stretches of events, one after the other. */
  lemma {:induction false} RecordedAppend<S>(a: seq<Event<S>>, b: seq<Event<S>>)
    ensures Recorded(a + b) == Recorded(a) + Recorded(b)
    decreases |a|
  {
    if a == [] {
      assert a + b == b;
    } else {
      assert (a + b)[0] == a[0];
      assert (a + b)[1..] == a[1..] + b;
      RecordedAppend(a[1..], b);
      calc {
        Recorded(a + b);
        RecordOf(a[0]) + Recorded(a[1..] + b);
        RecordOf(a[0]) + (Recorded(a[1..]) + Recorded(b));
        (RecordOf(a[0]) + Recorded(a[1..])) + Recorded(b);
      }
    }
  }

  /** A single event contributes its own raw set and record, if any. */
  lemma SingleEvent<S>(e: Event<S>)
    ensures RawSets([e]) == RawSetOf(e) && Recorded([e]) == RecordOf(e)
  {
  }

  /** The policy calls made while reading one snapshot of state `s`. */
  ghost function SnapshotEvents<S, H, C>(opts: Options<S, H, C>, s: S): seq<Event<S>> {
    if opts.partialize.Some? then [Partialize(s)] else []
  }

  /** The call `options?.diff?.(past, current)` makes, if `diff` is configured. */
  ghost function DiffEvents<S, H, C>(opts: Options<S, H, C>, past: S, current: S): seq<Event<S>> {
    if opts.diff.Some? then [DiffCall(past, current)] else []
  }

  /** The call `options?.equality?.(past, current)` makes, if `equality` is configured. */
  ghost function EqualityEvents<S, H, C>(opts: Options<S, H, C>, past: S, current: S): seq<Event<S>> {
    if opts.equality.Some? then [EqualityCall(past, current)] else []
  }

  /** Events that neither run the host's setter nor the recorder. */
  ghost predicate Quiet<S>(es: seq<Event<S>>) {
    forall e | e in es :: !e.RawSet? && !e.Record?
  }

  /** A quiet stretch calls neither the setter nor the recorder. */
  lemma {:induction false} QuietFacts<S>(es: seq<Event<S>>)
    requires Quiet(es)
    ensures RawSets(es) == [] && Recorded(es) == []
    decreases |es|
  {
    if es != [] {
      assert es[0] in es;
      assert Quiet(es[1..]) by {
        forall e | e in es[1..] ensures !e.RawSet? && !e.Record? {
          assert e in es;
        }
      }
      QuietFacts(es[1..]);
    }
  }

  /** In `a + [RawSet(upd)] + b`, where `a` only partializes `s` and `b` never runs the
      setter and only partializes `t`, everything else comes after the setter. */
  lemma SetterSplits<S>(a: seq<Event<S>>, upd: S -> S, b: seq<Event<S>>, s: S, t: S)
    requires forall e | e in a :: e == Partialize(s)
    requires forall e | e in b :: !e.RawSet? && (e.Partialize? ==> e.arg == t)
    ensures var es := a + [RawSet(upd)] + b;
            && (forall i, j | 0 <= i < j < |es| && es[i].Partialize? && es[j].RawSet? :: es[i].arg == s)
            && (forall i, j | 0 <= i < j < |es| && es[i].RawSet? && es[j].Partialize? :: es[j].arg == t)
            && (forall i, j | 0 <= i < |es| && 0 <= j < |es| && es[i].RawSet? && !es[j].RawSet? && !es[j].Partialize? :: i < j)
  {
    var es := a + [RawSet(upd)] + b;
    forall i | 0 <= i < |es|
      ensures i < |a| ==> es[i] == Partialize(s)
      ensures i == |a| ==> es[i] == RawSet(upd)
      ensures i > |a| ==> !es[i].RawSet? && (es[i].Partialize? ==> es[i].arg == t)
    {
      if i < |a| {
        assert es[i] == a[i] && a[i] in a;
      } else if i > |a| {
        assert es[i] == b[i - |a| - 1] && b[i - |a| - 1] in b;
      }
    }
  }

  /** In `a + b`, where `a` never consults `equality` and `b` never consults `diff`, every
      `diff` call comes before every `equality` call. */
  lemma DiffPrecedesEquality<S>(a: seq<Event<S>>, b: seq<Event<S>>)
    requires forall e | e in a :: !e.EqualityCall?
    requires forall e | e in b :: !e.DiffCall?
    ensures var es := a + b;
            forall i, j | 0 <= i < |es| && 0 <= j < |es| && es[i].DiffCall? && es[j].EqualityCall? :: i < j
  {
  }

  /** The recorder call the config-level gate makes, if any. */
  ghost function RecordEvents<S, H, C>(opts: Options<S, H, C>, past: S, current: S): seq<Event<S>> {
    if ShouldRecord(opts, past, current) then [Record(past)] else []
  }

  /** What one config-level `set(upd)` from state `s` does, step by step: read the
      snapshot, run the host's setter, read the snapshot again, consult `diff` and then
      `equality`, and call the recorder if the gate lets the pair through. `Store.ConfigSet`
      is proved to make exactly these calls, in this order. */
  ghost function ConfigSetEvents<S, H, C>(opts: Options<S, H, C>, s: S, upd: S -> S): seq<Event<S>> {
    var past := Snapshot(opts, s);
    var current := Snapshot(opts, upd(s));
    SnapshotEvents(opts, s) + [RawSet(upd)] + SnapshotEvents(opts, upd(s)) +
    DiffEvents(opts, past, current) + EqualityEvents(opts, past, current) + RecordEvents(opts, past, current)
  }

  /** A config-level `set` runs the host's setter exactly once, with the caller's arguments,
      and hands the recorder what its gate decides. */
  lemma ConfigSetCalls<S, H, C>(opts: Options<S, H, C>, s: S, upd: S -> S)
    ensures RawSets(ConfigSetEvents(opts, s, upd)) == [upd]
    ensures Recorded(ConfigSetEvents(opts, s, upd)) == StepRecords(opts, s, ViaConfig(upd))
  {
    var past := Snapshot(opts, s);
    var current := Snapshot(opts, upd(s));
    var pre := SnapshotEvents(opts, s);
    var mid := SnapshotEvents(opts, upd(s)) + DiffEvents(opts, past, current) + EqualityEvents(opts, past, current);
    var rec := RecordEvents(opts, past, current);
    assert Quiet(pre);
    assert Quiet(mid);
    assert ConfigSetEvents(opts, s, upd) == pre + [RawSet(upd)] + mid + rec;
    QuietAroundRawSets(pre, RawSet(upd), mid, rec);
    QuietAroundRecorded(pre, RawSet(upd), mid, rec);
    SingleEvent(RawSet(upd));
    SingleEvent(Record(past));
  }

  /** Around one event, quiet stretches add no setter calls. */
  lemma QuietAroundRawSets<S>(pre: seq<Event<S>>, x: Event<S>, mid: seq<Event<S>>, rec: seq<Event<S>>)
    requires Quiet(pre) && Quiet(mid)
    ensures RawSets(pre + [x] + mid + rec) == RawSets([x]) + RawSets(rec)
  {
    var a := pre + [x];
    RawSetsAppend(a + mid, rec);
    RawSetsAppend(a, mid);
    RawSetsAppend(pre, [x]);
    QuietFacts(pre);
    QuietFacts(mid);
  }

  /** Around one event, quiet stretches add no recorder calls. */
  lemma QuietAroundRecorded<S>(pre: seq<Event<S>>, x: Event<S>, mid: seq<Event<S>>, rec: seq<Event<S>>)
    requires Quiet(pre) && Quiet(mid)
    ensures Recorded(pre + [x] + mid + rec) == Recorded([x]) + Recorded(rec)
  {
    var a := pre + [x];
    RecordedAppend(a + mid, rec);
    RecordedAppend(a, mid);
    RecordedAppend(pre, [x]);
    QuietFacts(pre);
    QuietFacts(mid);
  }

  /** In a config-level `set`, `partialize` sees the old state before the setter runs and
      the new one after it, and the gate's policies and the recorder run only once the
      setter has. */
  lemma ConfigSetSetterFirst<S, H, C>(opts: Options<S, H, C>, s: S, upd: S -> S)
    ensures var es := ConfigSetEvents(opts, s, upd);
            && (forall i, j | 0 <= i < j < |es| && es[i].Partialize? && es[j].RawSet? :: es[i].arg == s)
            && (forall i, j | 0 <= i < j < |es| && es[i].RawSet? && es[j].Partialize? :: es[j].arg == upd(s))
            && (forall i, j | 0 <= i < |es| && 0 <= j < |es| && es[i].RawSet? && !es[j].RawSet? && !es[j].Partialize? :: i < j)
  {
    var past := Snapshot(opts, s);
    var current := Snapshot(opts, upd(s));
    var rest := SnapshotEvents(opts, upd(s)) + DiffEvents(opts, past, current) + EqualityEvents(opts, past, current) +
                RecordEvents(opts, past, current);
    assert ConfigSetEvents(opts, s, upd) == SnapshotEvents(opts, s) + [RawSet(upd)] + rest;
    SetterSplits(SnapshotEvents(opts, s), upd, rest, s, upd(s));
  }

  /** In a config-level `set`, `diff` is evaluated before `equality`. */
  lemma ConfigSetDiffFirst<S, H, C>(opts: Options<S, H, C>, s: S, upd: S -> S)
    ensures var es := ConfigSetEvents(opts, s, upd);
            forall i, j | 0 <= i < |es| && 0 <= j < |es| && es[i].DiffCall? && es[j].EqualityCall? :: i < j
  {
    var past := Snapshot(opts, s);
    var current := Snapshot(opts, upd(s));
    var d := DiffEvents(opts, past, current);
    var q := EqualityEvents(opts, past, current);
    var rec := RecordEvents(opts, past, current);
    var front := SnapshotEvents(opts, s) + [RawSet(upd)] + SnapshotEvents(opts, upd(s)) + d;
    assert forall e: Event<S> | e in front :: !e.EqualityCall?;
    assert forall e: Event<S> | e in q + rec :: !e.DiffCall?;
    assert ConfigSetEvents(opts, s, upd) == front + (q + rec);
    DiffPrecedesEquality(front, q + rec);
  }

  /** A config-level `set` consults each configured policy, and only those, on the pair of
      snapshots read before and after the setter, whatever the other policy answers. */
  lemma ConfigSetConsults<S, H, C>(opts: Options<S, H, C>, s: S, upd: S -> S)
    ensures var es := ConfigSetEvents(opts, s, upd);
            && (DiffCall(Snapshot(opts, s), Snapshot(opts, upd(s))) in es <==> opts.diff.Some?)
            && (EqualityCall(Snapshot(opts, s), Snapshot(opts, upd(s))) in es <==> opts.equality.Some?)
            && (forall e | e in es && (e.DiffCall? || e.EqualityCall?) ::
                  e.past == Snapshot(opts, s) && e.current == Snapshot(opts, upd(s)))
  {
  }

  /** What one `store.setState(upd)` from state `s` does, step by step: read the snapshot,
      run the host's setter, call the recorder. */
  ghost function SetStateEvents<S, H, C>(opts: Options<S, H, C>, s: S, upd: S -> S): seq<Event<S>> {
    SnapshotEvents(opts, s) + [RawSet(upd), Record(Snapshot(opts, s))]
  }

  /** A `store.setState` runs the host's setter exactly once, with the caller's arguments,
      and always records the snapshot read before it. */
  lemma SetStateCalls<S, H, C>(opts: Options<S, H, C>, s: S, upd: S -> S)
    ensures RawSets(SetStateEvents(opts, s, upd)) == [upd]
    ensures Recorded(SetStateEvents(opts, s, upd)) == StepRecords(opts, s, ViaSetState(upd))
  {
    var pre := SnapshotEvents(opts, s);
    var e1, e2 := RawSet(upd), Record(Snapshot(opts, s));
    assert Quiet(pre);
    QuietFacts(pre);
    SingleEvent(e1);
    SingleEvent(e2);
    assert SetStateEvents(opts, s, upd) == pre + [e1] + [e2];
    RawSetsAppend(pre + [e1], [e2]);
    RawSetsAppend(pre, [e1]);
    RecordedAppend(pre + [e1], [e2]);
    RecordedAppend(pre, [e1]);
  }

  /** A `store.setState` consults neither `equality` nor `diff`, reads no snapshot after the
      setter and calls the recorder only once the setter has run. */
  lemma SetStateOrder<S, H, C>(opts: Options<S, H, C>, s: S, upd: S -> S)
    ensures var es := SetStateEvents(opts, s, upd);
            && (forall e | e in es :: !e.DiffCall? && !e.EqualityCall?)
            && (forall e | e in es && e.Partialize? :: e.arg == s)
            && (forall i, j | 0 <= i < |es| && 0 <= j < |es| && es[i].RawSet? && es[j].Record? :: i < j)
  {
  }

  /** The transformers of a sequence of calls. */
  function Updates<S>(h: seq<Call<S>>): seq<S -> S> {
    seq(|h|, i requires 0 <= i < |h| => h[i].upd)
  }

  /** Appending six stretches one at a time appends their concatenation. */
  lemma Regroup<T>(e0: seq<T>, a: seq<T>, b: seq<T>, c: seq<T>, d: seq<T>, q: seq<T>, r: seq<T>)
    ensures e0 + a + b + c + d + q + r == e0 + (a + b + c + d + q + r)
  {
  }

  /** The host store as the middleware sees it: its state, the recorder and history-store
      creator chosen at setup, and the log of what was handed to the recorder. */
  class Store<S, H, C> {
    const options: Options<S, H, C>
    /** `store.temporal` is built from this creator. */
    const temporal: C
    /** The recorder both interceptors call. */
    const recorder: H
    var state: S
    /** The arguments of every call of `recorder`, in order. */
    var recorded: seq<S>

    ghost const initial: S
    /** Every wrapped call made so far. */
    ghost var history: seq<Call<S>>
    /** Every policy, setter and recorder call made by the interceptors so far. */
    ghost var events: seq<Event<S>>

    ghost predicate Valid()
      reads this
    {
      && state == After(initial, history)
      && recorded == Records(options, initial, history)
      && recorded == Recorded(events)
      && RawSets(events) == Updates(history)
    }

    /** Composition time: `creator` is `temporalStateCreator(set, get, options)` and
        `handleSet` the `_handleSet` of the history store built from it. */
    constructor (init: S, options: Options<S, H, C>, creator: C, handleSet: H)
      ensures Valid()
      ensures this.options == options
      ensures temporal == HistoryCreator(options, creator)
      ensures recorder == CurriedHandleSet(options, handleSet)
      ensures state == init && recorded == [] && history == [] && events == []
    {
      this.options := options;
      temporal := HistoryCreator(options, creator);
      recorder := CurriedHandleSet(options, handleSet);
      state := init;
      recorded := [];
      initial := init;
      history := [];
      events := [];
    }

    /** The `set` handed to the user's state creator. */
    method ConfigSet(upd: S -> S)
      requires Valid()
      modifies this
      ensures Valid()
      ensures state == upd(old(state))
      ensures recorded == old(recorded) + StepRecords(options, old(state), ViaConfig(upd))
      ensures history == old(history) + [ViaConfig(upd)]
      ensures events == old(events) + ConfigSetEvents(options, old(state), upd)
    {
      ghost var s, e0 := state, events;
      var pastState := Snapshot(options, state);
      events := events + SnapshotEvents(options, state);
      state := upd(state);
      events := events + [RawSet(upd)];
      var currentState := Snapshot(options, state);
      events := events + SnapshotEvents(options, state);
      var deltaState := DeltaOf(options, pastState, currentState);
      events := events + DiffEvents(options, pastState, currentState);
      var equal := Equal(options, pastState, currentState);
      events := events + EqualityEvents(options, pastState, currentState);
      if !(equal || deltaState.Null?) {
        recorded := recorded + [pastState];
        events := events + [Record(pastState)];
      }
      Regroup(e0, SnapshotEvents(options, s), [RawSet(upd)], SnapshotEvents(options, state),
              DiffEvents(options, pastState, currentState), EqualityEvents(options, pastState, currentState),
              RecordEvents(options, pastState, currentState));
      ConfigSetCalls(options, s, upd);
      Commit(ViaConfig(upd), e0, ConfigSetEvents(options, s, upd));
    }

    /** The override installed on `store.setState`. */
    method StoreSetState(upd: S -> S)
      requires Valid()
      modifies this
      ensures Valid()
      ensures state == upd(old(state))
      ensures recorded == old(recorded) + StepRecords(options, old(state), ViaSetState(upd))
      ensures history == old(history) + [ViaSetState(upd)]
      ensures events == old(events) + SetStateEvents(options, old(state), upd)
    {
      ghost var s, e0 := state, events;
      var pastState := Snapshot(options, state);
      events := events + SnapshotEvents(options, state);
      state := upd(state);
      events := events + [RawSet(upd)];
      recorded := recorded + [pastState];
      events := events + [Record(pastState)];
      assert events == e0 + SetStateEvents(options, s, upd);
      SetStateCalls(options, s, upd);
      Commit(ViaSetState(upd), e0, SetStateEvents(options, s, upd));
    }

    /** Appends the call to `history` once its effects on the state, the log and the
        trace are in place, re-establishing `Valid()`. */
    ghost method Commit(c: Call<S>, before: seq<Event<S>>, step: seq<Event<S>>)
      requires state == c.upd(After(initial, history))
      requires recorded == Records(options, initial, history) + StepRecords(options, After(initial, history), c)
      requires events == before + step
      requires Recorded(before) == Records(options, initial, history)
      requires Recorded(step) == StepRecords(options, After(initial, history), c)
      requires RawSets(before) == Updates(history) && RawSets(step) == [c.upd]
      modifies this`history
      ensures history == old(history) + [c]
      ensures Valid()
    {
      AfterSnoc(initial, history, c);
      RecordsSnoc(options, initial, history, c);
      RawSetsAppend(before, step);
      RecordedAppend(before, step);
      assert Updates(history + [c]) == Updates(history) + [c.upd];
      history := history + [c];
    }
  }

  /** What `Valid()` gives a client of a store: when every call so far recorded
      unconditionally, the log holds one snapshot per call, the i-th being the snapshot of
      the host state just before the i-th call. */
  lemma UngatedStoreLog<S, H, C>(st: Store<S, H, C>)
    requires st.Valid()
    requires forall i | 0 <= i < |st.history| :: Ungated(st.options, st.history[i])
    ensures |st.recorded| == |st.history|
    ensures forall i | 0 <= i < |st.history| ::
              st.recorded[i] == Snapshot(st.options, After(st.initial, st.history[..i]))
  {
    UngatedRunRecordsEveryPreState(st.options, st.initial, st.history);
  }
}
