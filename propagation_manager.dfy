/**
 * ContextPropagationManager: capture a key-to-value snapshot from every registered
 * accessor, restore a snapshot into them, and clear them all, each accessor on its
 * own so that one failing accessor never stops the others.
 */
module PropagationManager {
  import opened Wrappers
  import opened Platform
  import opened ThreadState
  import opened Accessors

  /** The captured context: accessor key to captured value. */
  type Snapshot = map<string, CtxValue>

  /** The accessor's getValue completed with a non-null value, which capture records. */
  predicate Captured(a: Accessor, s: Locals) {
    Get(a, s).Success? && Get(a, s).value.Some?
  }

  /** The keys of a list of accessors. */
  function KeysOf(accs: seq<Accessor>): set<string> {
    set a | a in accs :: Key(a)
  }

  /** captureContext: the snapshot after visiting accs in order. */
  function CaptureSpec(accs: seq<Accessor>, s: Locals): Snapshot {
    if accs == [] then map[]
    else
      var snap := CaptureSpec(accs[..|accs| - 1], s);
      var a := accs[|accs| - 1];
      match Get(a, s)
      case Success(Some(v)) => snap[Key(a) := v]
      case _ => snap   // a null value is skipped; a thrown exception is logged and skipped
  }

  /** restoreContext(snap) on a thread whose storage is s: the storage after visiting accs in order. */
  function RestoreSpec(accs: seq<Accessor>, snap: Snapshot, s: Locals): Locals {
    if accs == [] then s
    else
      var t := RestoreSpec(accs[..|accs| - 1], snap, s);
      var a := accs[|accs| - 1];
      if Key(a) in snap then SetState(a, Some(snap[Key(a)]), t) else t
  }

  /** clearContext on a thread whose storage is s. */
  function ClearSpec(accs: seq<Accessor>, s: Locals): Locals {
    if accs == [] then s else ClearState(accs[|accs| - 1], ClearSpec(accs[..|accs| - 1], s))
  }

  /**
   * The snapshot has an entry for an accessor's key exactly when that accessor's
   * getValue returned non-null without throwing, the entry is that value, and it
   * has no other entries.
   */
  lemma {:induction false} CaptureIsExact(accs: seq<Accessor>, s: Locals)
    ensures forall a :: a in accs ==> (Key(a) in CaptureSpec(accs, s) <==> Captured(a, s))
    ensures forall a :: a in accs && Captured(a, s) ==> CaptureSpec(accs, s)[Key(a)] == Get(a, s).value.value
    ensures CaptureSpec(accs, s).Keys <= KeysOf(accs)
  {
    if accs != [] {
      var init := accs[..|accs| - 1];
      var last := accs[|accs| - 1];
      CaptureIsExact(init, s);
      forall a | a in accs
        ensures Key(a) in CaptureSpec(accs, s) <==> Captured(a, s)
        ensures Captured(a, s) ==> CaptureSpec(accs, s)[Key(a)] == Get(a, s).value.value
      {
        KeyInjective(a, last);
        if a != last {
          assert a in init;
        }
      }
      assert KeysOf(accs) == KeysOf(init) + {Key(last)} by {
        assert accs == init + [last];
      }
    }
  }

  /** A restored entry of the right type is in its accessor's slot afterwards, and in its platform holder. */
  lemma {:induction false} RestoreInstalls(accs: seq<Accessor>, snap: Snapshot, s: Locals, a: Accessor)
    requires a in accs && Key(a) in snap && Accepts(a, snap[Key(a)])
    ensures Slot(a, RestoreSpec(accs, snap, s)) == Some(snap[Key(a)])
    ensures a != HeaderContextAccessor && (a != RequestAttributesAccessor || s.requestHolderFault.None?) ==>
              Ambient(a, RestoreSpec(accs, snap, s)) == Some(snap[Key(a)])
    ensures RestoreSpec(accs, snap, s).requestHolderFault == s.requestHolderFault
  {
    var init := accs[..|accs| - 1];
    var last := accs[|accs| - 1];
    if a in init {
      RestoreInstalls(init, snap, s, a);
    } else {
      RestoreKeepsFault(init, snap, s);
    }
    KeyInjective(a, last);
  }

  /** Restoring never changes whether RequestContextHolder throws. */
  lemma {:induction false} RestoreKeepsFault(accs: seq<Accessor>, snap: Snapshot, s: Locals)
    ensures RestoreSpec(accs, snap, s).requestHolderFault == s.requestHolderFault
  {
    if accs != [] {
      RestoreKeepsFault(accs[..|accs| - 1], snap, s);
    }
  }

  /** An accessor whose key has no entry is not called: its slot and platform holder are untouched. */
  lemma {:induction false} RestoreSkipsAbsent(accs: seq<Accessor>, snap: Snapshot, s: Locals, a: Accessor)
    requires Key(a) !in snap
    ensures Slot(a, RestoreSpec(accs, snap, s)) == Slot(a, s)
    ensures Ambient(a, RestoreSpec(accs, snap, s)) == Ambient(a, s)
  {
    if accs != [] {
      var last := accs[|accs| - 1];
      RestoreSkipsAbsent(accs[..|accs| - 1], snap, s, a);
      KeyInjective(a, last);
    }
  }

  /**
   * Round trip: restoring on a second thread what was captured on a first makes every
   * accessor that had a non-null value there return the same value on the second.
   */
  lemma RoundTrip(accs: seq<Accessor>, src: Locals, dst: Locals, a: Accessor)
    requires a in accs && Captured(a, src)
    ensures Get(a, RestoreSpec(accs, CaptureSpec(accs, src), dst)) == Get(a, src)
  {
    CaptureIsExact(accs, src);
    RestoreInstalls(accs, CaptureSpec(accs, src), dst, a);
  }

  /**
   * What clearContext leaves: each component some listed accessor clears is empty
   * (the RequestContextHolder only when it does not throw), every other one unchanged.
   * The result therefore does not depend on the order of the accessors.
   */
  lemma {:induction false} ClearSpecResult(accs: seq<Accessor>, s: Locals)
    ensures forall a :: Slot(a, ClearSpec(accs, s)) == if a in accs then None else Slot(a, s)
    ensures ClearSpec(accs, s).mdc == if MdcAccessor in accs || CustomContextAccessor in accs then None else s.mdc
    ensures ClearSpec(accs, s).localeHolder == if LocaleContextAccessor in accs then None else s.localeHolder
    ensures ClearSpec(accs, s).requestHolder ==
              if RequestAttributesAccessor in accs && s.requestHolderFault.None? then None else s.requestHolder
    ensures ClearSpec(accs, s).customHolder == if CustomContextAccessor in accs then None else s.customHolder
    ensures ClearSpec(accs, s).requestHolderFault == s.requestHolderFault
  {
    if accs != [] {
      var init := accs[..|accs| - 1];
      var last := accs[|accs| - 1];
      ClearSpecResult(init, s);
      assert accs == init + [last];
      var t := ClearSpec(init, s);
      var r := ClearState(last, t);
      assert Ambient(MdcAccessor, r) == (if last == MdcAccessor || last == CustomContextAccessor then None else Ambient(MdcAccessor, t));
      assert Ambient(LocaleContextAccessor, r) == (if last == LocaleContextAccessor then None else Ambient(LocaleContextAccessor, t));
      assert Ambient(RequestAttributesAccessor, r) ==
        (if last == RequestAttributesAccessor && t.requestHolderFault.None? then None else Ambient(RequestAttributesAccessor, t));
      assert Ambient(CustomContextAccessor, r) == (if last == CustomContextAccessor then None else Ambient(CustomContextAccessor, t));
    }
  }

  /** Clearing the accessors in any two orders leaves the same storage. */
  lemma ClearOrderIrrelevant(accs: seq<Accessor>, other: seq<Accessor>, s: Locals)
    requires forall a :: a in accs <==> a in other
    ensures ClearSpec(accs, s) == ClearSpec(other, s)
  {
    ClearSpecResult(accs, s);
    ClearSpecResult(other, s);
    var r1, r2 := ClearSpec(accs, s), ClearSpec(other, s);
    assert r1.headerSlot == r2.headerSlot by { assert Slot(HeaderContextAccessor, r1) == Slot(HeaderContextAccessor, r2); }
    assert r1.mdcSlot == r2.mdcSlot by { assert Slot(MdcAccessor, r1) == Slot(MdcAccessor, r2); }
    assert r1.localeSlot == r2.localeSlot by { assert Slot(LocaleContextAccessor, r1) == Slot(LocaleContextAccessor, r2); }
    assert r1.requestSlot == r2.requestSlot by { assert Slot(RequestAttributesAccessor, r1) == Slot(RequestAttributesAccessor, r2); }
    assert r1.customSlot == r2.customSlot by { assert Slot(CustomContextAccessor, r1) == Slot(CustomContextAccessor, r2); }
  }

  /**
   * After clearContext over all five accessors a thread holds nothing: every getValue is
   * null except the custom accessor's, which is an empty map (and the request accessor's
   * when RequestContextHolder throws something other than IllegalStateException).
   */
  lemma ClearedThreadIsEmpty(accs: seq<Accessor>, s: Locals)
    requires forall a :: a in accs
    ensures forall a :: Slot(a, ClearSpec(accs, s)) == None
    ensures Get(HeaderContextAccessor, ClearSpec(accs, s)) == Success(None)
    ensures Get(MdcAccessor, ClearSpec(accs, s)) == Success(None)
    ensures Get(LocaleContextAccessor, ClearSpec(accs, s)) == Success(None)
    ensures s.requestHolderFault != Some(RuntimeFault) ==> Get(RequestAttributesAccessor, ClearSpec(accs, s)) == Success(None)
    ensures Get(CustomContextAccessor, ClearSpec(accs, s)) == Success(Some(CustomValues(map[])))
  {
    ClearSpecResult(accs, s);
    assert MdcAccessor in accs && CustomContextAccessor in accs && LocaleContextAccessor in accs;
    assert RequestAttributesAccessor in accs;
  }

  // ---- the manager's loops ----

  /** captureContext: reads every accessor in list order; changes nothing. */
  method CaptureContext(accs: seq<Accessor>, th: ThreadLocals) returns (snap: Snapshot)
    ensures snap == CaptureSpec(accs, th.View())
    ensures forall a :: a in accs ==> (Key(a) in snap <==> Captured(a, th.View()))
    ensures forall a :: a in accs && Captured(a, th.View()) ==> snap[Key(a)] == Get(a, th.View()).value.value
    ensures snap.Keys <= KeysOf(accs)
  {
    snap := map[];
    var i := 0;
    while i < |accs|
      invariant 0 <= i <= |accs|
      invariant snap == CaptureSpec(accs[..i], th.View())
    {
      var accessor := accs[i];
      var value := Get(accessor, th.View());
      match value {
        case Success(Some(v)) =>
          snap := snap[Key(accessor) := v];
        case Success(None) =>
        case Failure(_) =>   // logged; the other accessors are still captured
      }
      assert accs[..i + 1][..i] == accs[..i];
      i := i + 1;
    }
    assert accs[..|accs|] == accs;
    CaptureIsExact(accs, th.View());
  }

  /** restoreContext: a null snapshot is a no-op; otherwise every accessor with an entry is set. */
  method RestoreContext(accs: seq<Accessor>, snap: Option<Snapshot>, th: ThreadLocals)
    modifies th
    ensures snap.None? ==> th.View() == old(th.View())
    ensures snap.Some? ==> th.View() == RestoreSpec(accs, snap.value, old(th.View()))
  {
    if snap.None? {
      return;
    }
    var context := snap.value;
    var i := 0;
    while i < |accs|
      invariant 0 <= i <= |accs|
      invariant th.View() == RestoreSpec(accs[..i], context, old(th.View()))
    {
      var accessor := accs[i];
      if Key(accessor) in context {
        var outcome := SetValue(accessor, th, Some(context[Key(accessor)]));
        // a failed setValue is logged; the remaining accessors are still restored
      }
      assert accs[..i + 1][..i] == accs[..i];
      i := i + 1;
    }
    assert accs[..|accs|] == accs;
  }

  /** clearContext: clears every accessor in list order. */
  method ClearContext(accs: seq<Accessor>, th: ThreadLocals)
    modifies th
    ensures th.View() == ClearSpec(accs, old(th.View()))
  {
    var i := 0;
    while i < |accs|
      invariant 0 <= i <= |accs|
      invariant th.View() == ClearSpec(accs[..i], old(th.View()))
    {
      Clear(accs[i], th);
      assert accs[..i + 1][..i] == accs[..i];
      i := i + 1;
    }
    assert accs[..|accs|] == accs;
  }
}
