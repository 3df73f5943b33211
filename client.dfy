/**
 * The Kubernetes primitives of the job: existence by listing, delete with
 * not-found folded away, the four-flag Helm ownership classifier, and the
 * Helm adoption patch inside a retry-on-conflict loop.
 */
module Client {
  import opened Wrappers
  import opened Kube

  /** A read of a possibly nil Go map: a nil map reads as empty. */
  function Lookup(m: Option<StringMap>, key: string): (r: Option<string>)
    ensures r.Some? <==> m.Some? && key in m.value
    ensures r.Some? ==> r.value == m.value[key]
  {
    if m.Some? && key in m.value then Some(m.value[key]) else None
  }

  /**
   * `DeploymentImportedIntoHelm`/`ServiceImportedIntoHelm` after a successful
   * Get: a nil label or annotation map gives four false flags; otherwise the
   * release annotations, the managed-by label and the ABSENCE of the amazon key
   * from the ANNOTATIONS.
   */
  function Classify(meta: ObjectMeta): (m: Markers)
    ensures meta.labels.None? || meta.annotations.None? ==> m == NoMarkers
    ensures meta.labels.Some? && meta.annotations.Some? ==>
      && (m.releaseName <==> Lookup(meta.annotations, ReleaseNameKey) == Some(ReleaseNameValue))
      && (m.releaseNamespace <==> Lookup(meta.annotations, ReleaseNamespaceKey) == Some(ReleaseNamespaceValue))
      && (m.managedBy <==> Lookup(meta.labels, ManagedByKey) == Some(ManagedByValue))
      && (m.amazonRemoved <==> Lookup(meta.annotations, AmazonManagedKey).None?)
  {
    if meta.labels.None? || meta.annotations.None? then NoMarkers
    else
      var ann, lab := meta.annotations.value, meta.labels.value;
      Markers(
        ReleaseNameKey in ann && ann[ReleaseNameKey] == ReleaseNameValue,
        ReleaseNamespaceKey in ann && ann[ReleaseNamespaceKey] == ReleaseNamespaceValue,
        ManagedByKey in lab && lab[ManagedByKey] == ManagedByValue,
        AmazonManagedKey !in ann)
  }

  /**
   * The object as the adoption patch leaves it: the two release annotations and
   * the managed-by label hold their Helm values, every other key is kept, and the
   * amazon key is removed from the labels exactly when it is present in the
   * annotations.
   */
  function AdoptedMeta(meta: ObjectMeta): (r: ObjectMeta)
    requires meta.annotations.Some?
    ensures r.labels.Some? && r.annotations.Some?
    ensures Lookup(r.annotations, ReleaseNameKey) == Some(ReleaseNameValue)
    ensures Lookup(r.annotations, ReleaseNamespaceKey) == Some(ReleaseNamespaceValue)
    ensures Lookup(r.labels, ManagedByKey) == Some(ManagedByValue)
    ensures forall k :: k != ReleaseNameKey && k != ReleaseNamespaceKey ==>
      Lookup(r.annotations, k) == Lookup(meta.annotations, k)
    ensures forall k :: k != ManagedByKey && k != AmazonManagedKey ==>
      Lookup(r.labels, k) == Lookup(meta.labels, k)
    ensures Lookup(r.labels, AmazonManagedKey) ==
      if AmazonManagedKey in meta.annotations.value then None else Lookup(meta.labels, AmazonManagedKey)
  {
    var ann := meta.annotations.value;
    var lab := meta.labels.GetOr(map[])[ManagedByKey := ManagedByValue];
    ObjectMeta(
      Some(if AmazonManagedKey in ann then lab - {AmazonManagedKey} else lab),
      Some(ann[ReleaseNameKey := ReleaseNameValue][ReleaseNamespaceKey := ReleaseNamespaceValue]))
  }

  /**
   * The patch function of `ImportDeploymentIntoHelm`/`ImportServiceIntoHelm`,
   * step by step on its private copy. Writing a release annotation into a nil
   * annotation map is a Go runtime panic; it is returned here as `NilMapWrite`.
   * The patch reports a change exactly when the classifier does not already see
   * the object as adopted.
   */
  method PatchForHelm(meta: ObjectMeta) returns (r: Result<(bool, ObjectMeta), Error>)
    ensures r.Err? <==> meta.annotations.None?
    ensures r.Err? ==> r.error == NilMapWrite
    ensures r.Ok? ==> r.value.1 == AdoptedMeta(meta)
    ensures r.Ok? ==> (r.value.0 <==> !Classify(meta).AllSet())
  {
    var updated := false;
    var labels := meta.labels;
    if labels.None? {
      labels := Some(map[]);
    }
    var annotations := meta.annotations;
    if Lookup(annotations, ReleaseNameKey) != Some(ReleaseNameValue) {
      updated := true;
      if annotations.None? {
        return Err(NilMapWrite);
      }
      annotations := Some(annotations.value[ReleaseNameKey := ReleaseNameValue]);
    }
    if Lookup(annotations, ReleaseNamespaceKey) != Some(ReleaseNamespaceValue) {
      updated := true;
      if annotations.None? {
        return Err(NilMapWrite);
      }
      annotations := Some(annotations.value[ReleaseNamespaceKey := ReleaseNamespaceValue]);
    }
    if annotations.None? {
      annotations := Some(map[]);
    }
    if Lookup(labels, ManagedByKey) != Some(ManagedByValue) {
      updated := true;
      labels := Some(labels.value[ManagedByKey := ManagedByValue]);
    }
    if AmazonManagedKey in annotations.value {
      updated := true;
      labels := Some(labels.value - {AmazonManagedKey});
    }
    ghost var want := AdoptedMeta(meta);
    SameLookups(annotations, want.annotations);
    SameLookups(labels, want.labels);
    return Ok((updated, ObjectMeta(labels, annotations)));
  }

  /** Two non-nil maps that answer every lookup alike are equal. */
  lemma SameLookups(a: Option<StringMap>, b: Option<StringMap>)
    requires a.Some? && b.Some?
    requires forall k :: Lookup(a, k) == Lookup(b, k)
    ensures a == b
  {
    assert a.value.Keys == b.value.Keys by {
      forall k ensures k in a.value <==> k in b.value {
        assert Lookup(a, k).Some? == Lookup(b, k).Some?;
      }
    }
    forall k | k in a.value ensures a.value[k] == b.value[k] {
      assert Lookup(a, k) == Lookup(b, k);
    }
    assert a.value == b.value;
  }

  /** The linear name search of `DaemonsetExist`/`DeploymentExist`/`ServiceExist`. */
  method ContainsName(items: seq<string>, name: string) returns (found: bool)
    ensures found <==> name in items
  {
    found := false;
    var i := 0;
    while i < |items|
      invariant 0 <= i <= |items|
      invariant !found
      invariant name !in items[..i]
    {
      if items[i] == name {
        found := true;
        break;
      }
      i := i + 1;
    }
    assert !found ==> items[..i] == items;
  }

  // ---------------------------------------------------------------------------
  // Retry-on-conflict, as a function of the fault schedule.

  /** client-go `retry.DefaultRetry` allows five attempts. */
  const RetrySteps: nat := 5

  /** What one or more adoption attempts did: the error, the write issued, and the next request index. */
  datatype Outcome = Outcome(err: Option<Error>, written: Option<ObjectMeta>, next: nat)

  /**
   * One Get, patch and (if the patch changed something) Update, where request
   * `req` is the Get and `req + 1` the Update, `fault(i)` is the error the API
   * returns to request `i`, and `current` is the stored object.
   */
  function Attempt(fault: nat -> Option<Fault>, req: nat, current: Option<ObjectMeta>): (o: Outcome)
    ensures o.written.Some? ==>
      o.err.None? && current.Some? && current.value.annotations.Some? && o.written.value == AdoptedMeta(current.value)
    ensures o.next == req + 1 || o.next == req + 2
  {
    if fault(req).Some? then Outcome(fault(req), None, req + 1)
    else if current.None? then Outcome(Some(NotFound), None, req + 1)
    else if current.value.annotations.None? then Outcome(Some(NilMapWrite), None, req + 1)
    else if Classify(current.value).AllSet() then Outcome(None, None, req + 1)
    else if fault(req + 1).Some? then Outcome(fault(req + 1), None, req + 2)
    else Outcome(None, Some(AdoptedMeta(current.value)), req + 2)
  }

  /** `retry.RetryOnConflict`: an attempt that ends in a conflict is repeated while attempts remain. */
  function Retry(fault: nat -> Option<Fault>, req: nat, current: Option<ObjectMeta>, left: nat): (o: Outcome)
    requires left >= 1
    ensures req < o.next <= req + 2 * left
    decreases left
  {
    var a := Attempt(fault, req, current);
    if a.err == Some(Conflict) && left > 1 then Retry(fault, a.next, current, left - 1) else a
  }

  /** The only write the loop ever issues is the adopted object, and a write means success. */
  lemma {:induction false} RetryWritesOnlyAdopted(fault: nat -> Option<Fault>, req: nat, current: Option<ObjectMeta>, left: nat)
    requires left >= 1
    ensures var o := Retry(fault, req, current, left);
      o.written.Some? ==>
        o.err.None? && current.Some? && current.value.annotations.Some? && o.written.value == AdoptedMeta(current.value)
    decreases left
  {
    var a := Attempt(fault, req, current);
    if a.err == Some(Conflict) && left > 1 {
      RetryWritesOnlyAdopted(fault, a.next, current, left - 1);
    }
  }

  /** The loop succeeds only on an existing object with annotations, which it writes unless already adopted. */
  lemma {:induction false} RetrySucceedsOnlyAdopted(fault: nat -> Option<Fault>, req: nat, current: Option<ObjectMeta>, left: nat)
    requires left >= 1
    ensures var o := Retry(fault, req, current, left);
      o.err.None? ==>
        current.Some? && current.value.annotations.Some? && (o.written.Some? || Classify(current.value).AllSet())
    decreases left
  {
    var a := Attempt(fault, req, current);
    if a.err == Some(Conflict) && left > 1 {
      RetrySucceedsOnlyAdopted(fault, a.next, current, left - 1);
    }
  }

  /** An object the classifier already sees as adopted is never written, whatever the faults. */
  lemma {:induction false} RetryAdoptedIsNoOp(fault: nat -> Option<Fault>, req: nat, meta: ObjectMeta, left: nat)
    requires left >= 1
    requires Classify(meta).AllSet()
    ensures Retry(fault, req, Some(meta), left).written.None?
    decreases left
  {
    var a := Attempt(fault, req, Some(meta));
    if a.err == Some(Conflict) && left > 1 {
      RetryAdoptedIsNoOp(fault, a.next, meta, left - 1);
    }
  }

  /** When every request conflicts, the loop gives up after `left` attempts with the conflict. */
  lemma {:induction false} RetryGivesUp(fault: nat -> Option<Fault>, req: nat, current: Option<ObjectMeta>, left: nat)
    requires left >= 1
    requires forall i :: fault(i) == Some(Conflict)
    ensures Retry(fault, req, current, left) == Outcome(Some(Conflict), None, req + left)
    decreases left
  {
    if left > 1 {
      RetryGivesUp(fault, req + 1, current, left - 1);
    }
  }

  /** A failure other than a conflict ends the loop at the attempt that produced it. */
  lemma RetryStopsOnOtherError(fault: nat -> Option<Fault>, req: nat, current: Option<ObjectMeta>, left: nat)
    requires left >= 1
    requires Attempt(fault, req, current).err.Some? && Attempt(fault, req, current).err != Some(Conflict)
    ensures Retry(fault, req, current, left) == Attempt(fault, req, current)
  {
  }

  /** A single conflicting Update followed by clean requests ends in the adopted object on the second attempt. */
  lemma RetryRecoversFromConflict(fault: nat -> Option<Fault>, req: nat, meta: ObjectMeta)
    requires meta.annotations.Some? && !Classify(meta).AllSet()
    requires fault(req).None? && fault(req + 1) == Some(Conflict)
    requires fault(req + 2).None? && fault(req + 3).None?
    ensures Retry(fault, req, Some(meta), RetrySteps) == Outcome(None, Some(AdoptedMeta(meta)), req + 4)
  {
    assert Attempt(fault, req, Some(meta)) == Outcome(Some(Conflict), None, req + 2);
    assert Retry(fault, req + 2, Some(meta), RetrySteps - 1) == Outcome(None, Some(AdoptedMeta(meta)), req + 4);
  }

  // ---------------------------------------------------------------------------
  // What adoption achieves, and where it does not settle.

  /** After adoption the classifier sees the three Helm markers; the fourth depends on the annotations only. */
  lemma ClassifyAdopted(meta: ObjectMeta)
    requires meta.annotations.Some?
    ensures Classify(AdoptedMeta(meta)) == Markers(true, true, true, AmazonManagedKey !in meta.annotations.value)
  {
  }

  /** Adopting twice leaves the same object as adopting once. */
  lemma AdoptedMetaIdempotent(meta: ObjectMeta)
    requires meta.annotations.Some?
    ensures AdoptedMeta(AdoptedMeta(meta)) == AdoptedMeta(meta)
  {
    var once := AdoptedMeta(meta);
    var twice := AdoptedMeta(once);
    assert twice.annotations.value == once.annotations.value;
    assert twice.labels.value == once.labels.value;
  }

  /** The patch leaves an object the classifier sees as adopted exactly as it is. */
  lemma AdoptedMetaFixesAdopted(meta: ObjectMeta)
    requires Classify(meta).AllSet()
    ensures meta.annotations.Some? && AdoptedMeta(meta) == meta
  {
    assert meta.labels.Some? && meta.annotations.Some?;
    var r := AdoptedMeta(meta);
    SameLookups(r.annotations, meta.annotations);
    SameLookups(r.labels, meta.labels);
  }

  /**
   * An object whose annotations hold the amazon key is never seen as adopted:
   * every later run patches it again (the patch removes the key from the labels
   * but the classifier looks for it in the annotations).
   */
  lemma AdoptionNeverSettlesWithAmazonAnnotation(meta: ObjectMeta)
    requires meta.annotations.Some? && AmazonManagedKey in meta.annotations.value
    ensures !Classify(AdoptedMeta(meta)).AllSet()
    ensures !Classify(AdoptedMeta(AdoptedMeta(meta))).AllSet()
  {
    AdoptedMetaIdempotent(meta);
  }

  /** An amazon key held only as a label is reported removed and is kept by the patch. */
  lemma AmazonLabelSurvivesAdoption(meta: ObjectMeta)
    requires meta.annotations.Some? && meta.labels.Some?
    requires AmazonManagedKey !in meta.annotations.value && AmazonManagedKey in meta.labels.value
    ensures Classify(meta).amazonRemoved
    ensures Lookup(AdoptedMeta(meta).labels, AmazonManagedKey) == Some(meta.labels.value[AmazonManagedKey])
  {
  }

  // ---------------------------------------------------------------------------
  // The cluster.

  /**
   * The cluster as the job sees it through its client: the stored objects, a
   * count of API requests issued, and a log of the client functions called.
   * `faultAt(i)` is the error the API server returns to request `i`. The
   * client functions whose bodies are not part of this model read their
   * results from the oracle fields `awsOwned`, `clusterIpsOf`, `listed` and
   * `markersOf`, and change the one object they name as `mutate` says.
   */
  class Cluster {
    var store: Store
    var requests: nat
    ghost var calls: Log

    const faultAt: nat -> Option<Fault>
    const awsOwned: (Ref, Store) -> bool
    const clusterIpsOf: (Ref, Store) -> seq<string>
    const listed: (Ref, Store) -> bool
    const markersOf: (Ref, Store) -> Markers
    const mutate: (Step, Option<ObjectMeta>) -> Option<ObjectMeta>

    constructor (store: Store, faultAt: nat -> Option<Fault>, awsOwned: (Ref, Store) -> bool,
                 clusterIpsOf: (Ref, Store) -> seq<string>, listed: (Ref, Store) -> bool,
                 markersOf: (Ref, Store) -> Markers, mutate: (Step, Option<ObjectMeta>) -> Option<ObjectMeta>)
      ensures this.store == store && requests == 0 && calls == Empty
      ensures this.faultAt == faultAt && this.awsOwned == awsOwned && this.clusterIpsOf == clusterIpsOf
      ensures this.listed == listed && this.markersOf == markersOf && this.mutate == mutate
    {
      this.store := store;
      this.faultAt := faultAt;
      this.awsOwned := awsOwned;
      this.clusterIpsOf := clusterIpsOf;
      this.listed := listed;
      this.markersOf := markersOf;
      this.mutate := mutate;
      requests := 0;
      calls := Empty;
    }

    /** The stored object, if any. */
    function Current(ref: Ref): Option<ObjectMeta>
      reads this
    {
      if ref in store then Some(store[ref]) else None
    }

    // --- API requests (each consumes one entry of the fault schedule) ---

    /** List: the names of the objects of one kind in one namespace, in some order. */
    method List(kind: Kind, namespace: string) returns (r: Result<seq<string>, Error>)
      modifies this
      ensures store == old(store) && calls == old(calls) && requests == old(requests) + 1
      ensures faultAt(old(requests)).Some? ==> r == Err(faultAt(old(requests)).value)
      ensures faultAt(old(requests)).None? ==> r.Ok? && forall n :: n in r.value <==> Ref(kind, namespace, n) in store
    {
      var fault := faultAt(requests);
      requests := requests + 1;
      if fault.Some? {
        return Err(fault.value);
      }
      var pending := set ref | ref in store && ref.kind == kind && ref.namespace == namespace :: ref.name;
      assert forall n :: n in pending <==> Ref(kind, namespace, n) in store by {
        forall n | Ref(kind, namespace, n) in store ensures n in pending {
          var ref := Ref(kind, namespace, n);
          assert ref.name == n;
        }
      }
      var items := [];
      while pending != {}
        invariant forall n :: n in items || n in pending <==> Ref(kind, namespace, n) in store
        decreases |pending|
      {
        var n :| n in pending;
        items := items + [n];
        pending := pending - {n};
      }
      return Ok(items);
    }

    /** Get of one object. */
    method Get(ref: Ref) returns (r: Result<ObjectMeta, Error>)
      modifies this
      ensures store == old(store) && calls == old(calls) && requests == old(requests) + 1
      ensures r == (if faultAt(old(requests)).Some? then Err(faultAt(old(requests)).value)
                    else if ref in store then Ok(store[ref]) else Err(NotFound))
    {
      var fault := faultAt(requests);
      requests := requests + 1;
      if fault.Some? {
        r := Err(fault.value);
      } else if ref in store {
        r := Ok(store[ref]);
      } else {
        r := Err(NotFound);
      }
    }

    /** Delete of one object. */
    method Remove(ref: Ref) returns (err: Option<Error>)
      modifies this
      ensures calls == old(calls) && requests == old(requests) + 1
      ensures err == (if faultAt(old(requests)).Some? then faultAt(old(requests))
                      else if ref in old(store) then None else Some(NotFound))
      ensures store == if err.None? then old(store) - {ref} else old(store)
    {
      err := faultAt(requests);
      requests := requests + 1;
      if err.None? {
        if ref in store {
          store := store - {ref};
        } else {
          err := Some(NotFound);
        }
      }
    }

    /** Update of one object. */
    method Put(ref: Ref, meta: ObjectMeta) returns (err: Option<Error>)
      modifies this
      ensures calls == old(calls) && requests == old(requests) + 1
      ensures err == (if faultAt(old(requests)).Some? then faultAt(old(requests))
                      else if ref in old(store) then None else Some(NotFound))
      ensures store == if err.None? then old(store)[ref := meta] else old(store)
    {
      err := faultAt(requests);
      requests := requests + 1;
      if err.None? {
        if ref in store {
          store := store[ref := meta];
        } else {
          err := Some(NotFound);
        }
      }
    }

    // --- client functions (each is one entry of the call log) ---

    /** `DaemonsetExist`/`DeploymentExist`/`ServiceExist`: list, then search by name. */
    method Exist(ref: Ref) returns (found: bool, err: Option<Error>)
      modifies this
      ensures store == old(store) && requests == old(requests) + 1
      ensures calls == Snoc(old(calls), Call(Step(Op.Exist, ref), err.Some?))
      ensures err == faultAt(old(requests))
      ensures found <==> err.None? && ref in store
    {
      var listing := List(ref.kind, ref.namespace);
      if listing.Err? {
        found, err := false, Some(listing.error);
      } else {
        found := ContainsName(listing.value, ref.name);
        err := None;
      }
      calls := Snoc(calls, Call(Step(Op.Exist, ref), err.Some?));
    }

    /** `DeleteDaemonset`/`DeleteDeployment`/`DeleteService`: a not-found answer is not an error. */
    method DeleteObject(ref: Ref) returns (deleted: bool, err: Option<Error>)
      modifies this
      ensures requests == old(requests) + 1
      ensures calls == Snoc(old(calls), Call(Step(Op.Delete, ref), err.Some?))
      ensures var fault := faultAt(old(requests));
        && (fault.None? && ref in old(store) ==> deleted && err.None? && store == old(store) - {ref})
        && (fault.None? && ref !in old(store) ==> !deleted && err.None? && store == old(store))
        && (fault.Some? ==> !deleted && err == fault && store == old(store))
    {
      var e := Remove(ref);
      if e.Some? && e != Some(NotFound) {
        deleted, err := false, e;
      } else if e == Some(NotFound) {
        deleted, err := false, None;
      } else {
        deleted, err := true, None;
      }
      calls := Snoc(calls, Call(Step(Op.Delete, ref), err.Some?));
    }

    /**
     * `DeploymentImportedIntoHelm`/`ServiceImportedIntoHelm`: every failed Get,
     * not-found included, gives four false flags and the error.
     */
    method ImportedIntoHelm(ref: Ref) returns (m: Markers, err: Option<Error>)
      modifies this
      ensures store == old(store) && requests == old(requests) + 1
      ensures calls == Snoc(old(calls), Call(Step(Op.ImportedIntoHelm, ref), err.Some?))
      ensures faultAt(old(requests)).Some? ==> m == NoMarkers && err == faultAt(old(requests))
      ensures faultAt(old(requests)).None? && ref !in store ==> m == NoMarkers && err == Some(NotFound)
      ensures faultAt(old(requests)).None? && ref in store ==> m == Classify(store[ref]) && err.None?
    {
      var got := Get(ref);
      if got.Err? {
        m, err := NoMarkers, Some(got.error);
      } else {
        m, err := Classify(got.value), None;
      }
      calls := Snoc(calls, Call(Step(Op.ImportedIntoHelm, ref), err.Some?));
    }

    /** One attempt of the adoption: Get, patch a copy, and Update when the patch changed something. */
    method AttemptImport(ref: Ref) returns (e: Option<Error>)
      modifies this
      ensures var a := Attempt(faultAt, old(requests), old(Current(ref)));
        && e == a.err && requests == a.next
        && store == (if a.written.Some? then old(store)[ref := a.written.value] else old(store))
      ensures calls == old(calls)
    {
      var got := Get(ref);
      if got.Err? {
        e := Some(got.error);
      } else {
        var patched := PatchForHelm(got.value);
        if patched.Err? {
          e := Some(patched.error);
        } else if !patched.value.0 {
          e := None;
        } else {
          e := Put(ref, patched.value.1);
        }
      }
    }

    /**
     * `ImportDeploymentIntoHelm`/`ImportServiceIntoHelm`: Get, patch a copy and
     * Update when the patch changed something, repeated on conflict while
     * attempts remain.
     */
    method ImportIntoHelm(ref: Ref) returns (err: Option<Error>)
      modifies this
      ensures var o := Retry(faultAt, old(requests), old(Current(ref)), RetrySteps);
        && err == o.err && requests == o.next
        && store == (if o.written.Some? then old(store)[ref := o.written.value] else old(store))
      ensures calls == Snoc(old(calls), Call(Step(Op.ImportIntoHelm, ref), err.Some?))
      ensures err.Some? ==> store == old(store)
      ensures err.None? ==>
        ref in old(store) && old(store)[ref].annotations.Some? && store == old(store)[ref := AdoptedMeta(old(store)[ref])]
    {
      ghost var current := Current(ref);
      ghost var goal := Retry(faultAt, requests, current, RetrySteps);
      var left := RetrySteps;
      var done := false;
      err := None;
      while !done
        invariant calls == old(calls)
        invariant !done ==> 1 <= left && store == old(store) && goal == Retry(faultAt, requests, current, left)
        invariant done ==> err == goal.err && requests == goal.next
        invariant done ==> store == (if goal.written.Some? then old(store)[ref := goal.written.value] else old(store))
        decreases if done then 0 else left
      {
        var e := AttemptImport(ref);
        if e == Some(Conflict) && left > 1 {
          left := left - 1;
        } else {
          err := e;
          done := true;
        }
      }
      calls := Snoc(calls, Call(Step(Op.ImportIntoHelm, ref), err.Some?));
      RetryWritesOnlyAdopted(faultAt, old(requests), current, RetrySteps);
      RetrySucceedsOnlyAdopted(faultAt, old(requests), current, RetrySteps);
      if err.None? && goal.written.None? {
        AdoptedMetaFixesAdopted(current.value);
        assert store == old(store)[ref := current.value];
      }
    }

    // --- client functions whose bodies are not part of this model ---

    /** One request whose answer is taken from the fault schedule. */
    method Request() returns (err: Option<Error>)
      modifies this
      ensures store == old(store) && calls == old(calls) && requests == old(requests) + 1
      ensures err == faultAt(old(requests))
    {
      err := faultAt(requests);
      requests := requests + 1;
    }

    /** `*ExistsAndIsAwsOne`: whether the object exists and is the vendor's, and a Service's cluster IPs. */
    method ExistsAndIsAwsOne(ref: Ref) returns (awsOne: bool, ips: seq<string>, err: Option<Error>)
      modifies this
      ensures store == old(store) && requests == old(requests) + 1
      ensures calls == Snoc(old(calls), Call(Step(Op.ExistsAndIsAwsOne, ref), err.Some?))
      ensures err == faultAt(old(requests))
      ensures err.None? ==> awsOne == awsOwned(ref, store) && ips == clusterIpsOf(ref, store)
    {
      err := Request();
      awsOne, ips := false, [];
      if err.None? {
        awsOne, ips := awsOwned(ref, store), clusterIpsOf(ref, store);
      }
      calls := Snoc(calls, Call(Step(Op.ExistsAndIsAwsOne, ref), err.Some?));
    }

    /** `ConfigMapExist`. */
    method ListedExist(ref: Ref) returns (found: bool, err: Option<Error>)
      modifies this
      ensures store == old(store) && requests == old(requests) + 1
      ensures calls == Snoc(old(calls), Call(Step(Op.Exist, ref), err.Some?))
      ensures err == faultAt(old(requests))
      ensures err.None? ==> found == listed(ref, store)
    {
      err := Request();
      found := err.None? && listed(ref, store);
      calls := Snoc(calls, Call(Step(Op.Exist, ref), err.Some?));
    }

    /** `ServiceAccountImportedIntoHelm`/`ConfigMapImportedIntoHelm`. */
    method ReportedImportedIntoHelm(ref: Ref) returns (m: Markers, err: Option<Error>)
      modifies this
      ensures store == old(store) && requests == old(requests) + 1
      ensures calls == Snoc(old(calls), Call(Step(Op.ImportedIntoHelm, ref), err.Some?))
      ensures err == faultAt(old(requests))
      ensures err.None? ==> m == markersOf(ref, store)
    {
      err := Request();
      m := NoMarkers;
      if err.None? {
        m := markersOf(ref, store);
      }
      calls := Snoc(calls, Call(Step(Op.ImportedIntoHelm, ref), err.Some?));
    }

    /**
     * `DeleteConfigMap`/`DeleteServiceAccount`/`DeletePodDisruptionBudget` and
     * `ImportServiceAccountIntoHelm`/`ImportConfigMapAccountIntoHelm`/`ImportPodDisruptionBudgetIntoHelm`:
     * a failure leaves the store alone; otherwise the named object becomes what
     * `mutate` says and every other object stays as it was.
     */
    method Mutation(step: Step) returns (err: Option<Error>)
      requires step.op == Op.Delete || step.op == Op.ImportIntoHelm
      modifies this
      ensures requests == old(requests) + 1
      ensures calls == Snoc(old(calls), Call(step, err.Some?))
      ensures err == faultAt(old(requests))
      ensures err.Some? ==> store == old(store)
      ensures err.None? ==> At(store, step.ref) == mutate(step, At(old(store), step.ref))
      ensures forall r :: r != step.ref ==> At(store, r) == At(old(store), r)
    {
      err := Request();
      if err.None? {
        var v := mutate(step, Current(step.ref));
        store := if v.Some? then store[step.ref := v.value] else store - {step.ref};
      }
      calls := Snoc(calls, Call(step, err.Some?));
    }
  }
}
