/**
 The handles of a process, and the two halves of WriteMessage that take the listed handles into
 transit and out of it.  Calls run side by side; each half is one step.
 */
module HandleTables {
  /** A dispatcher, by its address. */
  type Dispatcher = nat
  type MojoHandle = nat

  const HANDLE_INVALID: MojoHandle := 0
  const TWO_TO_THE_32: nat := 0x1_0000_0000
  const MAX_HANDLES_PER_MESSAGE: nat := 1024 * 1024

  datatype MojoResult = OK | InvalidArgument | Busy | ResourceExhausted | Other(code: nat)

  datatype Entry = Entry(dispatcher: Dispatcher, busy: bool)

  datatype InTransit = InTransit(localHandle: MojoHandle, dispatcher: Dispatcher)

  type Table = map<MojoHandle, Entry>

  /** One outstanding call of WriteMessage, and what it has in transit. */
  type Calls = map<nat, seq<InTransit>>

  // ----- Marking -----

  function Mark(t: Table, ds: seq<InTransit>, busy: bool): Table {
    map h | h in t :: if Lists(ds, h) then t[h].(busy := busy) else t[h]
  }

  function Erase(t: Table, ds: seq<InTransit>): Table {
    map h | h in t && !Lists(ds, h) :: t[h]
  }

  predicate Lists(ds: seq<InTransit>, h: MojoHandle) {
    exists i :: 0 <= i < |ds| && ds[i].localHandle == h
  }

  function Dispatchers(ds: seq<InTransit>): set<Dispatcher> {
    set i | 0 <= i < |ds| :: ds[i].dispatcher
  }

  /** The listed handles are distinct, there, and marked. */
  ghost predicate Holds(t: Table, ds: seq<InTransit>, busy: bool) {
    (forall i :: 0 <= i < |ds| ==>
                   ds[i].localHandle in t && t[ds[i].localHandle] == Entry(ds[i].dispatcher, busy)) &&
    forall i, j :: 0 <= i < j < |ds| ==> ds[i].localHandle != ds[j].localHandle
  }

  // ----- Who holds what -----

  /** Every outstanding call holds its handles; no two calls list the same one. */
  ghost predicate CallsHold(t: Table, calls: Calls) {
    (forall c :: c in calls ==> Holds(t, calls[c], true)) &&
    forall c, c', h :: c in calls && c' in calls && c != c' && Lists(calls[c], h) ==> !Lists(calls[c'], h)
  }

  /** Every busy handle is held by an outstanding call. */
  ghost predicate BusyIsHeld(t: Table, calls: Calls) {
    forall h :: h in t && t[h].busy ==> exists c :: c in calls && Lists(calls[c], h)
  }

  /** A dispatcher is in the table once; it is travelling exactly when its handle is busy. */
  ghost predicate Travelling(t: Table, travelling: set<Dispatcher>) {
    (forall h, h' :: h in t && h' in t && t[h].dispatcher == t[h'].dispatcher ==> h == h') &&
    (forall h :: h in t ==> (t[h].busy <==> t[h].dispatcher in travelling))
  }

  ghost predicate Numbered(t: Table, next: nat) {
    next < TWO_TO_THE_32 && HANDLE_INVALID !in t && forall h :: h in t ==> next == 0 || h < next
  }

  lemma MarkLists(t: Table, ds: seq<InTransit>, d: InTransit, busy: bool)
    requires d.localHandle in t
    ensures Mark(t, ds + [d], busy) == Mark(t, ds, busy)[d.localHandle := t[d.localHandle].(busy := busy)]
    ensures forall h :: Lists(ds + [d], h) <==> Lists(ds, h) || h == d.localHandle
  {
    forall h
      ensures Lists(ds + [d], h) <==> Lists(ds, h) || h == d.localHandle
    {
      if Lists(ds, h) {
        var i :| 0 <= i < |ds| && ds[i].localHandle == h;
        assert (ds + [d])[i].localHandle == h;
      }
      if h == d.localHandle { assert (ds + [d])[|ds|].localHandle == h; }
    }
  }

  lemma BeginHolds(t: Table, calls: Calls, c: nat, ds: seq<InTransit>)
    requires CallsHold(t, calls) && BusyIsHeld(t, calls) && c !in calls && Holds(t, ds, false)
    ensures CallsHold(Mark(t, ds, true), calls[c := ds]) && BusyIsHeld(Mark(t, ds, true), calls[c := ds])
  {
    var t', calls' := Mark(t, ds, true), calls[c := ds];
    forall c', h | c' in calls && Lists(calls[c'], h)
      ensures !Lists(ds, h)
    {
      var i :| 0 <= i < |calls[c']| && calls[c'][i].localHandle == h;
      assert t[h].busy;
    }
    forall c' | c' in calls'
      ensures Holds(t', calls'[c'], true)
    {
      forall i | 0 <= i < |calls'[c']|
        ensures calls'[c'][i].localHandle in t' &&
                t'[calls'[c'][i].localHandle] == Entry(calls'[c'][i].dispatcher, true)
      {
        assert Lists(calls'[c'], calls'[c'][i].localHandle);
      }
    }
    forall h | h in t' && t'[h].busy
      ensures exists c' :: c' in calls' && Lists(calls'[c'], h)
    {
      if Lists(ds, h) {
        assert Lists(calls'[c], h);
      } else {
        var c' :| c' in calls && Lists(calls[c'], h);
        assert Lists(calls'[c'], h);
      }
    }
  }

  /** Ending a call, one way or the other, leaves the other calls what they hold. */
  lemma EndHolds(t: Table, calls: Calls, c: nat, t': Table)
    requires CallsHold(t, calls) && BusyIsHeld(t, calls) && c in calls
    requires t' == Erase(t, calls[c]) || t' == Mark(t, calls[c], false)
    ensures CallsHold(t', calls - {c}) && BusyIsHeld(t', calls - {c})
  {
    var calls' := calls - {c};
    forall c' | c' in calls'
      ensures Holds(t', calls'[c'], true)
    {
      forall i | 0 <= i < |calls[c']|
        ensures calls[c'][i].localHandle in t' && t'[calls[c'][i].localHandle] == Entry(calls[c'][i].dispatcher, true)
      {
        assert Lists(calls[c'], calls[c'][i].localHandle);
      }
    }
    forall h | h in t' && t'[h].busy
      ensures exists c' :: c' in calls' && Lists(calls'[c'], h)
    {
      assert t[h].busy && !Lists(calls[c], h);
      var c' :| c' in calls && Lists(calls[c'], h);
      assert Lists(calls'[c'], h);
    }
  }

  lemma MarkNone(t: Table, busy: bool)
    ensures Mark(t, [], busy) == t
  {
  }

  /** Cancelling what was just begun leaves the table as it was. */
  lemma CancelUndoes(t: Table, ds: seq<InTransit>)
    requires Holds(t, ds, false)
    ensures Mark(Mark(t, ds, true), ds, false) == t
  {
    forall h | h in t && Lists(ds, h)
      ensures !t[h].busy
    {
      var i :| 0 <= i < |ds| && ds[i].localHandle == h;
      assert t[ds[i].localHandle] == Entry(ds[i].dispatcher, false);
    }
  }

  lemma MarkedHolds(t: Table, ds: seq<InTransit>)
    requires Holds(t, ds, false)
    ensures Holds(Mark(t, ds, true), ds, true)
  {
    forall i | 0 <= i < |ds|
      ensures Mark(t, ds, true)[ds[i].localHandle] == Entry(ds[i].dispatcher, true)
    {
      assert Lists(ds, ds[i].localHandle);
    }
  }

  /** Marking handles and sending their dispatchers off go together. */
  lemma MarkTravels(t: Table, travelling: set<Dispatcher>, ds: seq<InTransit>, busy: bool)
    requires Travelling(t, travelling) && Holds(t, ds, !busy)
    ensures Travelling(Mark(t, ds, busy), if busy then travelling + Dispatchers(ds) else travelling - Dispatchers(ds))
  {
    forall h | h in t
      ensures Lists(ds, h) <==> t[h].dispatcher in Dispatchers(ds)
    {
      ListedDispatcher(t, ds, h, !busy);
    }
  }

  lemma ListedDispatcher(t: Table, ds: seq<InTransit>, h: MojoHandle, busy: bool)
    requires Holds(t, ds, busy) && h in t
    requires forall k, k' :: k in t && k' in t && t[k].dispatcher == t[k'].dispatcher ==> k == k'
    ensures Lists(ds, h) <==> t[h].dispatcher in Dispatchers(ds)
  {
    if t[h].dispatcher in Dispatchers(ds) {
      var i :| 0 <= i < |ds| && ds[i].dispatcher == t[h].dispatcher;
      assert t[ds[i].localHandle].dispatcher == t[h].dispatcher;
    }
  }

  lemma EraseTravels(t: Table, travelling: set<Dispatcher>, ds: seq<InTransit>)
    requires Travelling(t, travelling) && Holds(t, ds, true)
    ensures Travelling(Erase(t, ds), travelling - Dispatchers(ds))
  {
    forall h | h in t
      ensures Lists(ds, h) <==> t[h].dispatcher in Dispatchers(ds)
    {
      ListedDispatcher(t, ds, h, true);
    }
  }

  lemma OneMore(ds: seq<InTransit>, n: nat)
    requires n < |ds|
    ensures Dispatchers(ds[..n + 1]) == Dispatchers(ds[..n]) + {ds[n].dispatcher} && ds[..n + 1] == ds[..n] + [ds[n]]
    ensures forall h :: Lists(ds[..n + 1], h) <==> Lists(ds[..n], h) || h == ds[n].localHandle
  {
    var xs, ys := ds[..n + 1], ds[..n];
    forall d
      ensures d in Dispatchers(xs) <==> d in Dispatchers(ys) || d == ds[n].dispatcher
    {
      if d in Dispatchers(ys) {
        var i :| 0 <= i < |ys| && ys[i].dispatcher == d;
        assert xs[i].dispatcher == d;
      }
      if d == ds[n].dispatcher { assert xs[n].dispatcher == d; }
    }
    forall h
      ensures Lists(xs, h) <==> Lists(ys, h) || h == ds[n].localHandle
    {
      if Lists(ys, h) {
        var i :| 0 <= i < |ys| && ys[i].localHandle == h;
        assert xs[i].localHandle == h;
      }
      if h == ds[n].localHandle { assert xs[n].localHandle == h; }
    }
  }

  /** The listed handles are there, free, distinct, and their dispatchers are willing. */
  ghost predicate MayGo(t: Table, hs: seq<MojoHandle>, refusing: set<Dispatcher>) {
    (forall i :: 0 <= i < |hs| ==> hs[i] in t && !t[hs[i]].busy && t[hs[i]].dispatcher !in refusing) &&
    forall i, j :: 0 <= i < j < |hs| ==> hs[i] != hs[j]
  }

  /** The first handle that cannot go is not there. */
  ghost predicate FirstIsMissing(t: Table, hs: seq<MojoHandle>, refusing: set<Dispatcher>) {
    exists i :: 0 <= i < |hs| && MayGo(t, hs[..i], refusing) && hs[i] !in t
  }

  class HandleTable {
    var handles: Table
    var nextAvailableHandle: nat
    /** The dispatchers' own notes that they are in transit. */
    var travelling: set<Dispatcher>

    ghost predicate Valid()
      reads this
    {
      Numbered(handles, nextAvailableHandle) && Travelling(handles, travelling)
    }

    constructor ()
      ensures Valid() && handles == map[] && travelling == {} && nextAvailableHandle == 1
    {
      handles, nextAvailableHandle, travelling := map[], 1, {};
    }

    method AddDispatcher(d: Dispatcher) returns (handle: MojoHandle)
      requires Valid() && d !in travelling && forall h :: h in handles ==> handles[h].dispatcher != d
      modifies this`handles, this`nextAvailableHandle
      ensures Valid()
      ensures old(nextAvailableHandle) == HANDLE_INVALID ==> handle == HANDLE_INVALID && handles == old(handles)
      ensures old(nextAvailableHandle) != HANDLE_INVALID ==>
                handle !in old(handles) && handle != HANDLE_INVALID &&
                handles == old(handles)[handle := Entry(d, false)]
      ensures handle == old(nextAvailableHandle)
      ensures nextAvailableHandle == if handle == HANDLE_INVALID then handle else (handle + 1) % TWO_TO_THE_32
    {
      if nextAvailableHandle == HANDLE_INVALID { return HANDLE_INVALID; }
      handle := nextAvailableHandle;
      nextAvailableHandle := (nextAvailableHandle + 1) % TWO_TO_THE_32;
      handles := handles[handle := Entry(d, false)];
    }

    method GetAndRemoveDispatcher(handle: MojoHandle) returns (rv: MojoResult)
      requires Valid()
      modifies this`handles
      ensures Valid()
      ensures rv == if handle !in old(handles) then InvalidArgument else if old(handles)[handle].busy then Busy else OK
      ensures handles == if rv == OK then old(handles) - {handle} else old(handles)
    {
      if handle !in handles { return InvalidArgument; }
      if handles[handle].busy { return Busy; }
      handles := handles - {handle};
      return OK;
    }

    /** Takes handles into transit one by one, up to the first that cannot go; the caller undoes
        the others.  The dispatchers in `refusing` will not go. */
    method BeginTransit(hs: seq<MojoHandle>, refusing: set<Dispatcher>) returns (rv: MojoResult, ds: seq<InTransit>)
      requires Valid()
      modifies this`handles, this`travelling
      ensures Valid()
      ensures Holds(old(handles), ds, false) && handles == Mark(old(handles), ds, true)
      ensures travelling == old(travelling) + Dispatchers(ds)
      ensures |ds| <= |hs| && forall i :: 0 <= i < |ds| ==> ds[i].localHandle == hs[i]
      ensures rv == OK <==> |ds| == |hs|
      ensures rv == OK <==> MayGo(old(handles), hs, refusing)
      ensures rv == InvalidArgument <==> |ds| < |hs| && hs[|ds|] !in old(handles)
      ensures rv == Busy <==> |ds| < |hs| && hs[|ds|] in old(handles)
      ensures rv != OK ==> MayGo(old(handles), hs[..|ds|], refusing) && !MayGo(old(handles), hs[..|ds| + 1], refusing)
      ensures rv == Busy ==> handles[hs[|ds|]].busy || handles[hs[|ds|]].dispatcher in refusing
    {
      hide MayGo, Mark, Holds, Dispatchers;
      ds := [];
      MarkNone(handles, true);
      NoneMayGo(handles, hs[..0], refusing);
      NoneHolds(handles, travelling);
      for i := 0 to |hs|
        invariant |ds| == i && (forall j :: 0 <= j < i ==> ds[j].localHandle == hs[j])
        invariant Holds(old(handles), ds, false) && handles == Mark(old(handles), ds, true)
        invariant travelling == old(travelling) + Dispatchers(ds)
        invariant MayGo(old(handles), hs[..i], refusing)
        invariant Valid()
      {
        OneMoreMayGo(old(handles), ds, hs, refusing);
        MarkedAlike(old(handles), ds, true);
        if hs[i] !in handles { return InvalidArgument, ds; }
        if handles[hs[i]].busy { return Busy, ds; }
        var d := InTransit(hs[i], handles[hs[i]].dispatcher);
        if d.dispatcher in travelling || d.dispatcher in refusing { return Busy, ds; }
        TakeOne(old(handles), old(travelling), ds, d);
        travelling := travelling + {d.dispatcher};
        handles := handles[hs[i] := handles[hs[i]].(busy := true)];
        ds := ds + [d];
      }
      assert hs[..|hs|] == hs;
      return OK, ds;
    }

    static lemma MarkedAlike(t: Table, ds: seq<InTransit>, busy: bool)
      ensures Mark(t, ds, busy).Keys == t.Keys
      ensures forall h :: h in t ==> Mark(t, ds, busy)[h].dispatcher == t[h].dispatcher
    {
    }

    static lemma NoneHolds(t: Table, travelling: set<Dispatcher>)
      ensures Holds(t, [], false) && travelling + Dispatchers([]) == travelling
    {
    }

    static lemma NoneMayGo(t: Table, hs: seq<MojoHandle>, refusing: set<Dispatcher>)
      requires hs == []
      ensures MayGo(t, hs, refusing)
    {
    }

    /** After the first handles have been taken, the next decides. */
    static lemma OneMoreMayGo(t: Table, ds: seq<InTransit>, hs: seq<MojoHandle>, refusing: set<Dispatcher>)
      requires |ds| < |hs| && (forall i :: 0 <= i < |ds| ==> ds[i].localHandle == hs[i])
      requires MayGo(t, hs[..|ds|], refusing)
      ensures var h := hs[|ds|];
              if h in t && !Mark(t, ds, true)[h].busy && t[h].dispatcher !in refusing
              then MayGo(t, hs[..|ds| + 1], refusing)
              else !MayGo(t, hs[..|ds| + 1], refusing) && !MayGo(t, hs, refusing)
    {
      var h := hs[|ds|];
      assert hs[..|ds| + 1] == hs[..|ds|] + [h];
      if h in t && !Mark(t, ds, true)[h].busy { Unlisted(t, ds, h); }
    }

    /** A handle that is not busy has not been taken yet. */
    static lemma Unlisted(t: Table, ds: seq<InTransit>, h: MojoHandle)
      requires h in t && !Mark(t, ds, true)[h].busy
      ensures !Lists(ds, h) && t[h] == Mark(t, ds, true)[h]
      ensures forall i :: 0 <= i < |ds| ==> ds[i].localHandle != h
    {
      assert forall i :: 0 <= i < |ds| ==> Lists(ds, ds[i].localHandle);
    }

    /** One more handle is marked, and its dispatcher sent off. */
    static lemma TakeOne(t: Table, travelling: set<Dispatcher>, ds: seq<InTransit>, d: InTransit)
      requires Travelling(t, travelling) && Holds(t, ds, false) && d.localHandle in t
      requires !Mark(t, ds, true)[d.localHandle].busy && d.dispatcher == t[d.localHandle].dispatcher
      ensures Holds(t, ds + [d], false)
      ensures Mark(t, ds + [d], true) == Mark(t, ds, true)[d.localHandle := Entry(d.dispatcher, true)]
      ensures travelling + Dispatchers(ds + [d]) == travelling + Dispatchers(ds) + {d.dispatcher}
      ensures Travelling(Mark(t, ds + [d], true), travelling + Dispatchers(ds + [d]))
    {
      Unlisted(t, ds, d.localHandle);
      MarkLists(t, ds, d, true);
      assert (ds + [d])[..|ds| + 1] == ds + [d] && (ds + [d])[..|ds|] == ds;
      OneMore(ds + [d], |ds|);
      MarkTravels(t, travelling, ds + [d], true);
    }

    method CompleteTransitAndClose(ds: seq<InTransit>)
      requires Valid() && Holds(handles, ds, true) && Dispatchers(ds) <= travelling
      modifies this`handles, this`travelling
      ensures Valid() && handles == Erase(old(handles), ds) && travelling == old(travelling) - Dispatchers(ds)
    {
      assert Erase(handles, ds[..0]) == handles && travelling - Dispatchers(ds[..0]) == travelling;
      for i := 0 to |ds|
        invariant handles == Erase(old(handles), ds[..i]) && travelling == old(travelling) - Dispatchers(ds[..i])
      {
        OneMore(ds, i);
        NotYet(old(handles), ds, i, true);
        assert ds[i].localHandle in handles && handles[ds[i].localHandle].busy;
        assert ds[i].dispatcher in travelling;
        handles := handles - {ds[i].localHandle};
        travelling := travelling - {ds[i].dispatcher};
      }
      assert ds[..|ds|] == ds;
      EraseTravels(old(handles), old(travelling), ds);
    }

    method CancelTransit(ds: seq<InTransit>)
      requires Valid() && Holds(handles, ds, true) && Dispatchers(ds) <= travelling
      modifies this`handles, this`travelling
      ensures Valid() && handles == Mark(old(handles), ds, false) && travelling == old(travelling) - Dispatchers(ds)
    {
      MarkNone(handles, false);
      assert ds[..0] == [] && travelling - Dispatchers(ds[..0]) == travelling;
      for i := 0 to |ds|
        invariant handles == Mark(old(handles), ds[..i], false) && travelling == old(travelling) - Dispatchers(ds[..i])
      {
        OneMore(ds, i);
        NotYet(old(handles), ds, i, true);
        MarkLists(old(handles), ds[..i], ds[i], false);
        assert ds[i].localHandle in handles && handles[ds[i].localHandle].busy;
        assert ds[i].dispatcher in travelling;
        handles := handles[ds[i].localHandle := handles[ds[i].localHandle].(busy := false)];
        travelling := travelling - {ds[i].dispatcher};
      }
      assert ds[..|ds|] == ds;
      MarkTravels(old(handles), old(travelling), ds, false);
    }

    /** The i-th handle and its dispatcher are not among the first i. */
    static lemma NotYet(t: Table, ds: seq<InTransit>, i: nat, busy: bool)
      requires i < |ds| && Holds(t, ds, busy)
      requires forall k, k' :: k in t && k' in t && t[k].dispatcher == t[k'].dispatcher ==> k == k'
      ensures !Lists(ds[..i], ds[i].localHandle) && ds[i].dispatcher !in Dispatchers(ds[..i])
    {
      forall j | 0 <= j < i
        ensures ds[j].dispatcher != ds[i].dispatcher
      {
        assert t[ds[j].localHandle].dispatcher == ds[j].dispatcher &&
            t[ds[i].localHandle].dispatcher == ds[i].dispatcher;
      }
      assert forall j :: 0 <= j < i ==> ds[..i][j] == ds[j];
    }
  }

  // ----- Core -----

  datatype Begun = Returns(rv: MojoResult) | Started(dispatchers: seq<InTransit>)

  class Core {
    const table: HandleTable
    /** The calls of WriteMessage that are between their two steps, by number. */
    ghost var calls: Calls

    /** Each busy handle belongs to exactly one outstanding call, which holds all it lists. */
    ghost predicate Valid()
      reads this, table
    {
      table.Valid() && CallsHold(table.handles, calls) && BusyIsHeld(table.handles, calls)
    }

    constructor ()
      ensures Valid() && calls == map[] && fresh(table)
    {
      table := new HandleTable();
      calls := map[];
    }

    method AddDispatcher(d: Dispatcher) returns (handle: MojoHandle)
      requires Valid() && d !in table.travelling && forall h :: h in table.handles ==> table.handles[h].dispatcher != d
      modifies table
      ensures Valid() && handle == old(table.nextAvailableHandle)
      ensures table.handles == if handle == HANDLE_INVALID then old(table.handles)
                               else old(table.handles)[handle := Entry(d, false)]
    {
      handle := table.AddDispatcher(d);
    }

    method Close(handle: MojoHandle) returns (rv: MojoResult)
      requires Valid()
      modifies table
      ensures Valid()
      ensures rv == OK <==> handle in old(table.handles) && !old(table.handles)[handle].busy
      ensures table.handles == if rv == OK then old(table.handles) - {handle} else old(table.handles)
    {
      rv := table.GetAndRemoveDispatcher(handle);
    }

    /** The first step of call c: up to the message being handed to the pipe.  `direct` is what the
        pipe says to a message without handles. */
    method BeginWriteMessage(ghost c: nat, pipe: MojoHandle, hs: seq<MojoHandle>, refusing: set<Dispatcher>,
                             direct: MojoResult)
      returns (r: Begun)
      requires Valid() && c !in calls
      modifies this`calls, table
      ensures Valid()
      ensures r.Returns? ==> calls == old(calls) && table.handles == old(table.handles) &&
                             table.travelling == old(table.travelling)
      ensures r.Started? ==> calls == old(calls)[c := r.dispatchers] && |r.dispatchers| == |hs| > 0 &&
                             (forall i :: 0 <= i < |hs| ==> r.dispatchers[i].localHandle == hs[i]) &&
                             Holds(old(table.handles), r.dispatchers, false) &&
                             table.handles == Mark(old(table.handles), r.dispatchers, true)
      ensures pipe !in old(table.handles) ==> r == Returns(InvalidArgument)
      ensures pipe in old(table.handles) && hs == [] ==> r == Returns(direct)
      ensures pipe in old(table.handles) && |hs| > MAX_HANDLES_PER_MESSAGE ==> r == Returns(ResourceExhausted)
      ensures pipe in old(table.handles) && 0 < |hs| <= MAX_HANDLES_PER_MESSAGE ==>
                if pipe in hs then r == Returns(Busy)
                else if MayGo(old(table.handles), hs, refusing) then r.Started?
                else r == Returns(if FirstIsMissing(old(table.handles), hs, refusing) then InvalidArgument else Busy)
    {
      if pipe !in table.handles { return Returns(InvalidArgument); }
      if |hs| == 0 { return Returns(direct); }
      if |hs| > MAX_HANDLES_PER_MESSAGE { return Returns(ResourceExhausted); }
      for i := 0 to |hs|
        invariant pipe !in hs[..i]
      {
        if hs[i] == pipe { return Returns(Busy); }
      }
      assert hs[..|hs|] == hs;
      var rv, ds := table.BeginTransit(hs, refusing);
      MarkedHolds(old(table.handles), ds);
      if rv != OK {
        table.CancelTransit(ds);
        CancelUndoes(old(table.handles), ds);
        FirstDecides(old(table.handles), hs, refusing, |ds|);
        StayedHome(old(table.handles), old(table.travelling), ds);
        return Returns(rv);
      }
      BeginHolds(old(table.handles), calls, c, ds);
      calls := calls[c := ds];
      return Started(ds);
    }

    /** Whether the first handle that cannot go is there. */
    static lemma FirstDecides(t: Table, hs: seq<MojoHandle>, refusing: set<Dispatcher>, k: nat)
      requires k < |hs| && MayGo(t, hs[..k], refusing) && !MayGo(t, hs[..k + 1], refusing)
      ensures FirstIsMissing(t, hs, refusing) <==> hs[k] !in t
      ensures !MayGo(t, hs, refusing)
    {
      assert hs[..k + 1] == hs[..k] + [hs[k]];
      if FirstIsMissing(t, hs, refusing) {
        var i :| 0 <= i < |hs| && MayGo(t, hs[..i], refusing) && hs[i] !in t;
        if i > k {
          assert hs[..i][..k + 1] == hs[..k + 1];
          Shorter(t, hs[..i], refusing, k + 1);
        }
      }
      if MayGo(t, hs, refusing) { Shorter(t, hs, refusing, k + 1); }
    }

    static lemma Shorter(t: Table, hs: seq<MojoHandle>, refusing: set<Dispatcher>, k: nat)
      requires k <= |hs| && MayGo(t, hs, refusing)
      ensures MayGo(t, hs[..k], refusing)
    {
    }

    static lemma StayedHome(t: Table, travelling: set<Dispatcher>, ds: seq<InTransit>)
      requires Travelling(t, travelling) && Holds(t, ds, false)
      ensures travelling + Dispatchers(ds) - Dispatchers(ds) == travelling
    {
      forall i | 0 <= i < |ds|
        ensures ds[i].dispatcher !in travelling
      {
        assert t[ds[i].localHandle] == Entry(ds[i].dispatcher, false);
      }
    }

    /** The last step of call c, when the pipe has said rv: the handles go, or come back. */
    method EndWriteMessage(ghost c: nat, ds: seq<InTransit>, rv: MojoResult)
      requires Valid() && c in calls && calls[c] == ds
      modifies this`calls, table
      ensures Valid() && calls == old(calls) - {c}
      ensures rv == OK ==> table.handles == Erase(old(table.handles), ds)
      ensures rv != OK ==> table.handles == Mark(old(table.handles), ds, false)
    {
      AllTravel(table.handles, table.travelling, ds);
      EndHolds(table.handles, calls, c, if rv == OK then Erase(table.handles, ds) else Mark(table.handles, ds, false));
      if rv == OK {
        table.CompleteTransitAndClose(ds);
      } else {
        table.CancelTransit(ds);
      }
      calls := calls - {c};
    }

    static lemma AllTravel(t: Table, travelling: set<Dispatcher>, ds: seq<InTransit>)
      requires Travelling(t, travelling) && Holds(t, ds, true)
      ensures Dispatchers(ds) <= travelling
    {
      forall i | 0 <= i < |ds|
        ensures ds[i].dispatcher in travelling
      {
        assert t[ds[i].localHandle] == Entry(ds[i].dispatcher, true);
      }
    }
  }

  /** A call that succeeds removes exactly the handles it lists; one that fails leaves them there,
      not busy, and changes no other handle. */
  lemma CallEnds(t: Table, ds: seq<InTransit>, h: MojoHandle)
    requires Holds(t, ds, true)
    ensures h in Erase(t, ds) <==> h in t && !Lists(ds, h)
    ensures h in Mark(t, ds, false) <==> h in t
    ensures Lists(ds, h) ==> h in t && !Mark(t, ds, false)[h].busy
    ensures h in t && !Lists(ds, h) ==> Erase(t, ds)[h] == Mark(t, ds, false)[h] == t[h]
  {
    if Lists(ds, h) {
      var i :| 0 <= i < |ds| && ds[i].localHandle == h;
      assert t[ds[i].localHandle].busy;
    }
  }
}
