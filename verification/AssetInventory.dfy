/** The append-only asset log: observations of assets in a program, and relations between observed ones. */
module AssetInventory {
  import opened Options

  datatype Kind = Hostname | IpAddress

  /** One asset identity. It is never stored: it is read off the observations. */
  datatype Asset = Asset(program: string, kind: Kind, value: string)

  datatype Observation = Observation(id: string, asset: Asset, sourceDigest: Option<string>)

  datatype Relation = Relation(
    id: string,
    program: string,
    sourceKind: Kind,
    sourceValue: string,
    relatedKind: Kind,
    relatedValue: string,
    sourceDigest: Option<string>)
  {
    function Source(): Asset { Asset(program, sourceKind, sourceValue) }
    function Related(): Asset { Asset(program, relatedKind, relatedValue) }
  }

  datatype Document = Document(observations: seq<Observation>, relations: seq<Relation>)

  const MAX_OBSERVATIONS: nat := 5000
  const MAX_RELATIONS: nat := 5000

  function Observed(d: Document): set<Asset> { set o | o in d.observations :: o.asset }

  function AssetsOf(d: Document, program: string): set<Asset> { set a | a in Observed(d) && a.program == program }

  predicate Anchored(r: Relation, d: Document) { r.Source() in Observed(d) && r.Related() in Observed(d) }

  /** What the document constructor insists on, whoever writes or reads it. */
  predicate ValidDocument(d: Document) {
    && |d.observations| <= MAX_OBSERVATIONS && |d.relations| <= MAX_RELATIONS
    && (forall i, j :: 0 <= i < j < |d.observations| ==> d.observations[i].id != d.observations[j].id)
    && (forall i, j :: 0 <= i < j < |d.relations| ==> d.relations[i].id != d.relations[j].id)
    && (forall i :: 0 <= i < |d.relations| ==> Anchored(d.relations[i], d))
  }

  predicate HasObservation(d: Document, a: Asset) { exists o :: o in d.observations && o.asset == a }

  predicate HasResolution(d: Document, program: string, host: string, address: string) {
    exists r :: r in d.relations && r.Source() == Asset(program, Hostname, host) && r.Related() == Asset(program, IpAddress, address)
  }

  /** Only ever longer, and the old entries unchanged. */
  predicate Extends(before: Document, after: Document) {
    before.observations <= after.observations && before.relations <= after.relations
  }

  function WithObservation(d: Document, o: Observation): Document { d.(observations := d.observations + [o]) }

  function WithRelation(d: Document, r: Relation): Document { d.(relations := d.relations + [r]) }

  predicate CanObserve(d: Document, o: Observation) {
    (forall i :: 0 <= i < |d.observations| ==> d.observations[i].id != o.id) && |d.observations| < MAX_OBSERVATIONS
  }

  predicate CanRelate(d: Document, r: Relation) {
    && HasObservation(d, r.Source()) && HasObservation(d, r.Related())
    && (forall i :: 0 <= i < |d.relations| ==> d.relations[i].id != r.id) && |d.relations| < MAX_RELATIONS
  }

  lemma ObservingKeepsValid(d: Document, o: Observation)
    requires ValidDocument(d) && CanObserve(d, o)
    ensures ValidDocument(WithObservation(d, o)) && Observed(WithObservation(d, o)) == Observed(d) + {o.asset}
  {
    var n := WithObservation(d, o);
    assert n.observations[|d.observations|] == o;
    assert forall x :: x in n.observations <==> x in d.observations || x == o;
    forall i | 0 <= i < |n.relations| ensures Anchored(n.relations[i], n) {
      assert Anchored(d.relations[i], d);
    }
  }

  /** A relation can be recorded only between assets observed in its own program, and stays anchored. */
  lemma RelatingKeepsValid(d: Document, r: Relation)
    requires ValidDocument(d) && CanRelate(d, r)
    ensures ValidDocument(WithRelation(d, r)) && Observed(WithRelation(d, r)) == Observed(d)
  {
    var n := WithRelation(d, r);
    forall i | 0 <= i < |n.relations| ensures Anchored(n.relations[i], n) {
      if i < |d.relations| {
        assert Anchored(d.relations[i], d);
      }
    }
  }

  /** What may be recorded is exactly what leaves a document that its constructor accepts. */
  lemma CanObserveIff(d: Document, o: Observation)
    requires ValidDocument(d)
    ensures CanObserve(d, o) <==> ValidDocument(WithObservation(d, o))
  {
    if CanObserve(d, o) {
      ObservingKeepsValid(d, o);
    }
    if ValidDocument(WithObservation(d, o)) {
      var n := WithObservation(d, o).observations;
      forall i | 0 <= i < |d.observations| ensures d.observations[i].id != o.id {
        assert n[i] == d.observations[i] && n[|d.observations|] == o;
      }
    }
  }

  lemma CanRelateIff(d: Document, r: Relation)
    requires ValidDocument(d)
    ensures CanRelate(d, r) <==> ValidDocument(WithRelation(d, r))
  {
    if CanRelate(d, r) {
      RelatingKeepsValid(d, r);
    }
    if ValidDocument(WithRelation(d, r)) {
      var n := WithRelation(d, r).relations;
      assert Anchored(n[|d.relations|], WithRelation(d, r));
      forall i | 0 <= i < |d.relations| ensures d.relations[i].id != r.id {
        assert n[i] == d.relations[i] && n[|d.relations|] == r;
      }
    }
  }

  // -- ingesting a DNS lookup ----------------------------------------------------------------

  /** What one completed lookup honestly yields; its names are already canonical. */
  datatype DnsResult = DnsResult(program: string, digest: string, hostname: string, addresses: seq<string>)

  datatype AssetPreview = AssetPreview(asset: Asset, alreadyKnown: bool)

  datatype DnsPreview = DnsPreview(host: AssetPreview, addresses: seq<AssetPreview>, resolutionsKnown: seq<bool>)

  function HostOf(run: DnsResult): Asset { Asset(run.program, Hostname, run.hostname) }

  function AddressAt(run: DnsResult, i: nat): Asset
    requires i < |run.addresses|
  {
    Asset(run.program, IpAddress, run.addresses[i])
  }

  function PreviewOf(d: Document, run: DnsResult): DnsPreview {
    DnsPreview(
      AssetPreview(HostOf(run), HasObservation(d, HostOf(run))),
      seq(|run.addresses|, i requires 0 <= i < |run.addresses| => AssetPreview(AddressAt(run, i), HasObservation(d, AddressAt(run, i)))),
      seq(|run.addresses|, i requires 0 <= i < |run.addresses| => HasResolution(d, run.program, run.hostname, run.addresses[i])))
  }

  /** The assets the run names. */
  function Named(run: DnsResult, n: nat): set<Asset>
    requires n <= |run.addresses|
  {
    {HostOf(run)} + set i: nat | i < n :: AddressAt(run, i)
  }

  /** The distinct assets a preview marks unknown. */
  function MarkedUnknown(p: DnsPreview): set<Asset> {
    (if p.host.alreadyKnown then {} else {p.host.asset}) + set x | x in p.addresses && !x.alreadyKnown :: x.asset
  }

  lemma UnknownAreTheNewOnes(d: Document, run: DnsResult)
    ensures MarkedUnknown(PreviewOf(d, run)) == Named(run, |run.addresses|) - Observed(d)
  {
    var p := PreviewOf(d, run);
    forall a ensures a in MarkedUnknown(p) <==> a in Named(run, |run.addresses|) - Observed(d) {
      if a in MarkedUnknown(p) && a != HostOf(run) {
        var x :| x in p.addresses && !x.alreadyKnown && x.asset == a;
        var i: nat :| i < |p.addresses| && p.addresses[i] == x;
        assert a == AddressAt(run, i);
      }
      if a in Named(run, |run.addresses|) - Observed(d) && a != HostOf(run) {
        var i: nat :| i < |run.addresses| && a == AddressAt(run, i);
        assert p.addresses[i] == AssetPreview(a, false);
      }
    }
  }

  /** The preview says of each asset and each resolution the run names whether the document holds it. */
  lemma PreviewShows(d: Document, run: DnsResult)
    ensures var p := PreviewOf(d, run);
            && p.host.asset == Asset(run.program, Hostname, run.hostname) && (p.host.alreadyKnown <==> p.host.asset in Observed(d))
            && |p.addresses| == |p.resolutionsKnown| == |run.addresses|
            && forall i :: 0 <= i < |run.addresses| ==>
                 && p.addresses[i].asset == Asset(run.program, IpAddress, run.addresses[i])
                 && (p.addresses[i].alreadyKnown <==> p.addresses[i].asset in Observed(d))
                 && (p.resolutionsKnown[i] <==>
                       exists r :: r in d.relations && r.Source() == p.host.asset && r.Related() == p.addresses[i].asset)
  {
  }

  // -- everything one run records --------------------------------------------------------------

  function ObservationAt(run: DnsResult, ids: nat -> string, k: nat): Observation
    requires k <= |run.addresses|
  {
    if k == 0 then Observation(ids(0), HostOf(run), Some(run.digest)) else Observation(ids(2 * k - 1), AddressAt(run, k - 1), Some(run.digest))
  }

  function RelationAt(run: DnsResult, ids: nat -> string, k: nat): Relation
    requires k < |run.addresses|
  {
    Relation(ids(2 * k + 2), run.program, Hostname, run.hostname, IpAddress, run.addresses[k], Some(run.digest))
  }

  /** The document with the first `m` observations and the first `n` relations of the run added. */
  function WithRun(d: Document, run: DnsResult, ids: nat -> string, m: nat, n: nat): (r: Document)
    requires m <= |run.addresses| + 1 && n <= |run.addresses|
    ensures |r.observations| == |d.observations| + m && |r.relations| == |d.relations| + n
  {
    Document(d.observations + seq(m, k requires 0 <= k < m => ObservationAt(run, ids, k)),
             d.relations + seq(n, k requires 0 <= k < n => RelationAt(run, ids, k)))
  }

  /** The whole run can be recorded when every save lands and the document would take all of it. */
  predicate CanIngest(d: Document, run: DnsResult, ids: nat -> string, lands: nat -> bool) {
    && (forall k: nat :: k <= 2 * |run.addresses| ==> lands(k))
    && ValidDocument(WithRun(d, run, ids, |run.addresses| + 1, |run.addresses|))
  }

  lemma WithRunGrows(d: Document, run: DnsResult, ids: nat -> string, m: nat, n: nat)
    requires m <= |run.addresses| + 1 && n <= |run.addresses|
    ensures m <= |run.addresses| ==> WithRun(d, run, ids, m + 1, n) == WithObservation(WithRun(d, run, ids, m, n), ObservationAt(run, ids, m))
    ensures n < |run.addresses| ==> WithRun(d, run, ids, m, n + 1) == WithRelation(WithRun(d, run, ids, m, n), RelationAt(run, ids, n))
    ensures WithRun(d, run, ids, 0, 0) == d
  {
  }

  /** Where the whole run can be recorded, so can its next observation. */
  lemma ObservesNext(d: Document, run: DnsResult, ids: nat -> string, m: nat, n: nat)
    requires m <= |run.addresses| && n <= |run.addresses|
    requires ValidDocument(WithRun(d, run, ids, |run.addresses| + 1, |run.addresses|))
    ensures CanObserve(WithRun(d, run, ids, m, n), ObservationAt(run, ids, m))
  {
    var (now, all) := (WithRun(d, run, ids, m, n).observations, WithRun(d, run, ids, |run.addresses| + 1, |run.addresses|).observations);
    assert all[|now|] == ObservationAt(run, ids, m);
    assert forall i :: 0 <= i < |now| ==> now[i] == all[i];
  }

  /** And its next relation, once both its assets are observed. */
  lemma RelatesNext(d: Document, run: DnsResult, ids: nat -> string, m: nat, n: nat)
    requires n < |run.addresses| && n + 2 <= m <= |run.addresses| + 1
    requires ValidDocument(WithRun(d, run, ids, |run.addresses| + 1, |run.addresses|))
    ensures CanRelate(WithRun(d, run, ids, m, n), RelationAt(run, ids, n))
  {
    var (now, all) := (WithRun(d, run, ids, m, n), WithRun(d, run, ids, |run.addresses| + 1, |run.addresses|).relations);
    assert all[|now.relations|] == RelationAt(run, ids, n);
    assert forall i :: 0 <= i < |now.relations| ==> now.relations[i] == all[i];
    assert now.observations[|d.observations|] == ObservationAt(run, ids, 0);
    assert now.observations[|d.observations| + n + 1] == ObservationAt(run, ids, n + 1);
  }

  /** The name and the first `i` addresses of the run are recorded, and nothing else happened. */
  ghost predicate IngestedUpTo(before: Document, now: Document, run: DnsResult, i: nat)
    requires i <= |run.addresses|
  {
    && Extends(before, now) && Observed(now) == Observed(before) + Named(run, i)
    && |now.observations| == |before.observations| + 1 + i && |now.relations| == |before.relations| + i
    && forall j :: 0 <= j < i ==> HasResolution(now, run.program, run.hostname, run.addresses[j])
  }

  /** The first `m` observations and the first `n` relations of the run are all that was written. */
  predicate WroteUpTo(before: Document, now: Document, run: DnsResult, ids: nat -> string, m: nat, n: nat) {
    m <= |run.addresses| + 1 && n <= |run.addresses| && now == WithRun(before, run, ids, m, n)
  }

  /** The name's own observation, as its record comes out. */
  lemma RunBegins(before: Document, now: Document, run: DnsResult, ids: nat -> string, lands: nat -> bool, ok: bool)
    requires ok <==> CanObserve(before, ObservationAt(run, ids, 0)) && lands(0)
    requires now == if ok then WithObservation(before, ObservationAt(run, ids, 0)) else before
    ensures WroteUpTo(before, now, run, ids, if ok then 1 else 0, 0)
    ensures !ok ==> !CanIngest(before, run, ids, lands)
  {
    WithRunGrows(before, run, ids, 0, 0);
    if CanIngest(before, run, ids, lands) {
      ObservesNext(before, run, ids, 0, 0);
    }
  }

  /** One address of it. */
  lemma RunGoesOn(before: Document, now: Document, after: Document, run: DnsResult, ids: nat -> string, lands: nat -> bool, i: nat, ok: bool)
    requires i < |run.addresses| && WroteUpTo(before, now, run, ids, i + 1, i)
    requires var (o, r) := (ObservationAt(run, ids, i + 1), RelationAt(run, ids, i));
             var noted := WithObservation(now, o);
             && (ok <==> CanObserve(now, o) && lands(2 * i + 1) && CanRelate(noted, r) && lands(2 * i + 2))
             && after == if ok then WithRelation(noted, r) else if CanObserve(now, o) && lands(2 * i + 1) then noted else now
    ensures ok ==> WroteUpTo(before, after, run, ids, i + 2, i + 1) && lands(2 * i + 1) && lands(2 * i + 2)
    ensures !ok ==> !CanIngest(before, run, ids, lands)
                    && (WroteUpTo(before, after, run, ids, i + 1, i) || WroteUpTo(before, after, run, ids, i + 2, i))
  {
    hide CanObserve, CanRelate, WithRun, ValidDocument, WithObservation, WithRelation, ObservationAt, RelationAt;
    WithRunGrows(before, run, ids, i + 1, i);
    WithRunGrows(before, run, ids, i + 2, i);
    if CanIngest(before, run, ids, lands) {
      ObservesNext(before, run, ids, i + 1, i);
      RelatesNext(before, run, ids, i + 2, i);
    }
  }

  lemma RunEnds(before: Document, now: Document, run: DnsResult, ids: nat -> string, lands: nat -> bool)
    requires WroteUpTo(before, now, run, ids, |run.addresses| + 1, |run.addresses|) && ValidDocument(now)
    requires forall k: nat :: k <= 2 * |run.addresses| ==> lands(k)
    ensures CanIngest(before, run, ids, lands) && now == WithRun(before, run, ids, |run.addresses| + 1, |run.addresses|)
  {
  }

  lemma IngestionStarts(before: Document, now: Document, run: DnsResult)
    requires exists o :: now == WithObservation(before, o) && o.asset == HostOf(run)
    requires Observed(now) == Observed(before) + {HostOf(run)}
    ensures IngestedUpTo(before, now, run, 0)
  {
    assert Named(run, 0) == {HostOf(run)};
  }

  /** Recording an address adds at most that address to what is observed. */
  lemma IngestsNoMore(before: Document, now: Document, after: Document, run: DnsResult, i: nat)
    requires i < |run.addresses| && IngestedUpTo(before, now, run, i)
    requires Extends(now, after) && Observed(after) <= Observed(now) + {AddressAt(run, i)}
    ensures Extends(before, after) && Observed(after) <= Observed(before) + Named(run, |run.addresses|)
  {
    assert Named(run, i) + {AddressAt(run, i)} <= Named(run, |run.addresses|);
  }

  lemma IngestsOneMore(before: Document, now: Document, after: Document, run: DnsResult, i: nat)
    requires i < |run.addresses| && IngestedUpTo(before, now, run, i)
    requires Extends(now, after) && Observed(after) == Observed(now) + {AddressAt(run, i)}
    requires |after.observations| == |now.observations| + 1 && |after.relations| == |now.relations| + 1
    requires HasResolution(after, run.program, run.hostname, run.addresses[i])
    ensures IngestedUpTo(before, after, run, i + 1)
  {
    assert Named(run, i + 1) == Named(run, i) + {AddressAt(run, i)};
    forall j | 0 <= j < i ensures HasResolution(after, run.program, run.hostname, run.addresses[j]) {
      ResolutionLasts(now, after, run.program, run.hostname, run.addresses[j]);
    }
  }

  lemma ResolutionLasts(now: Document, after: Document, program: string, host: string, address: string)
    requires Extends(now, after) && HasResolution(now, program, host, address)
    ensures HasResolution(after, program, host, address)
  {
    var r :| r in now.relations && r.Source() == Asset(program, Hostname, host) && r.Related() == Asset(program, IpAddress, address);
    var i :| 0 <= i < |now.relations| && now.relations[i] == r;
    assert after.relations[i] == r;
  }

  lemma IngestionEnds(before: Document, now: Document, run: DnsResult)
    requires IngestedUpTo(before, now, run, |run.addresses|)
    ensures Extends(before, now) && Observed(now) == Observed(before) + Named(run, |run.addresses|)
    ensures |now.observations| == |before.observations| + 1 + |run.addresses| && |now.relations| == |before.relations| + |run.addresses|
    ensures forall j :: 0 <= j < |run.addresses| ==> HasResolution(now, run.program, run.hostname, run.addresses[j])
  {
  }

  class InventoryStore {
    var saved: Document

    constructor ()
      ensures saved == Document([], [])
    {
      saved := Document([], []);
    }

    /** An atomic replacement of the whole document: it lands whole or changes nothing. */
    method Save(document: Document, lands: bool) returns (ok: bool)
      modifies this
      ensures ok == lands && saved == if lands then document else old(saved)
    {
      if lands {
        saved := document;
      }
      ok := lands;
    }
  }

  class Inventory {
    const store: InventoryStore

    ghost predicate Ok()
      reads this, store
    {
      ValidDocument(store.saved)
    }

    constructor (store: InventoryStore)
      requires ValidDocument(store.saved)
      ensures Ok() && this.store == store
    {
      this.store := store;
    }

    method RecordObservation(o: Observation, lands: bool) returns (ok: bool)
      requires Ok()
      modifies store
      ensures Ok() && ok == (CanObserve(old(store.saved), o) && lands)
      ensures store.saved == if ok then WithObservation(old(store.saved), o) else old(store.saved)
      ensures Observed(store.saved) == Observed(old(store.saved)) + if ok then {o.asset} else {}
    {
      var document := store.saved;
      if (exists x :: x in document.observations && x.id == o.id) || |document.observations| >= MAX_OBSERVATIONS {
        return false;
      }
      ObservingKeepsValid(document, o);
      ok := store.Save(WithObservation(document, o), lands);
    }

    method RecordRelation(r: Relation, lands: bool) returns (ok: bool)
      requires Ok()
      modifies store
      ensures Ok() && ok == (CanRelate(old(store.saved), r) && lands)
      ensures store.saved == if ok then WithRelation(old(store.saved), r) else old(store.saved)
      ensures Observed(store.saved) == Observed(old(store.saved))
    {
      var document := store.saved;
      if !HasObservation(document, r.Source()) || !HasObservation(document, r.Related()) {
        return false;
      }
      if (exists x :: x in document.relations && x.id == r.id) || |document.relations| >= MAX_RELATIONS {
        return false;
      }
      RelatingKeepsValid(document, r);
      ok := store.Save(WithRelation(document, r), lands);
    }

    /** Confirm one lookup. Each record is its own write, so a failure keeps what was written before
        it; when all landed, the derived assets grew by exactly the distinct ones the preview had
        marked unknown, in this program only. */
    method RecordDnsIngestion(run: DnsResult, ids: nat -> string, lands: nat -> bool) returns (ok: bool)
      requires Ok()
      modifies store
      ensures Ok() && Extends(old(store.saved), store.saved)
      ensures Observed(store.saved) <= Observed(old(store.saved)) + Named(run, |run.addresses|)
      ensures ok ==>
                && Observed(store.saved) == Observed(old(store.saved)) + MarkedUnknown(PreviewOf(old(store.saved), run))
                && |store.saved.observations| == |old(store.saved).observations| + 1 + |run.addresses|
                && |store.saved.relations| == |old(store.saved).relations| + |run.addresses|
                && forall i :: 0 <= i < |run.addresses| ==> HasResolution(store.saved, run.program, run.hostname, run.addresses[i])
      ensures ok <==> CanIngest(old(store.saved), run, ids, lands)
      ensures ok ==> store.saved == WithRun(old(store.saved), run, ids, |run.addresses| + 1, |run.addresses|)
      ensures !ok ==> exists m: nat, n: nat :: n <= m <= n + 2 && WroteUpTo(old(store.saved), store.saved, run, ids, m, n)
    {
      hide WithRun, CanIngest, WroteUpTo, CanObserve, CanRelate, Observed, MarkedUnknown, PreviewOf, Named, IngestedUpTo, ValidDocument,
           HasResolution, HasObservation;
      ghost var before := store.saved;
      UnknownAreTheNewOnes(before, run);
      ok := RecordObservation(Observation(ids(0), HostOf(run), Some(run.digest)), lands(0));
      RunBegins(before, store.saved, run, ids, lands, ok);
      if !ok {
        return;
      }
      IngestionStarts(before, store.saved, run);
      var i := 0;
      while i < |run.addresses|
        invariant i <= |run.addresses| && Ok() && IngestedUpTo(before, store.saved, run, i)
        invariant WroteUpTo(before, store.saved, run, ids, i + 1, i) && forall k: nat :: k <= 2 * i ==> lands(k)
      {
        ghost var now := store.saved;
        ok := RecordAddress(run, i, ids(2 * i + 1), ids(2 * i + 2), lands(2 * i + 1), lands(2 * i + 2));
        IngestsNoMore(before, now, store.saved, run, i);
        RunGoesOn(before, now, store.saved, run, ids, lands, i, ok);
        if !ok {
          return;
        }
        IngestsOneMore(before, now, store.saved, run, i);
        i := i + 1;
      }
      RunEnds(before, store.saved, run, ids, lands);
      IngestionEnds(before, store.saved, run);
    }

    /** One resolved address: its observation, then its relation to the queried name. */
    method RecordAddress(run: DnsResult, i: nat, observationId: string, relationId: string, firstLands: bool, secondLands: bool)
      returns (ok: bool)
      requires Ok() && i < |run.addresses|
      modifies store
      ensures Ok() && Extends(old(store.saved), store.saved)
      ensures Observed(store.saved) <= Observed(old(store.saved)) + {AddressAt(run, i)}
      ensures ok ==>
                && Observed(store.saved) == Observed(old(store.saved)) + {AddressAt(run, i)}
                && |store.saved.observations| == |old(store.saved).observations| + 1
                && |store.saved.relations| == |old(store.saved).relations| + 1
                && HasResolution(store.saved, run.program, run.hostname, run.addresses[i])
      ensures var o := Observation(observationId, AddressAt(run, i), Some(run.digest));
              var r := Relation(relationId, run.program, Hostname, run.hostname, IpAddress, run.addresses[i], Some(run.digest));
              var noted := WithObservation(old(store.saved), o);
              && (ok <==> CanObserve(old(store.saved), o) && firstLands && CanRelate(noted, r) && secondLands)
              && store.saved == if ok then WithRelation(noted, r)
                                else if CanObserve(old(store.saved), o) && firstLands then noted else old(store.saved)
    {
      ok := RecordObservation(Observation(observationId, AddressAt(run, i), Some(run.digest)), firstLands);
      if !ok {
        return;
      }
      var relation := Relation(relationId, run.program, Hostname, run.hostname, IpAddress, run.addresses[i], Some(run.digest));
      ok := RecordRelation(relation, secondLands);
      if ok {
        assert store.saved.relations[|old(store.saved).relations|] == relation;
      }
    }
  }

  /** Every asset the run names was known or is new, and only its own program grows. */
  lemma OnlyItsProgramGrows(before: Document, after: Document, run: DnsResult, program: string)
    requires Observed(after) == Observed(before) + MarkedUnknown(PreviewOf(before, run))
    ensures AssetsOf(after, program) == AssetsOf(before, program)
                                        + if program == run.program then Named(run, |run.addresses|) - Observed(before) else {}
    ensures MarkedUnknown(PreviewOf(after, run)) == {}
  {
    UnknownAreTheNewOnes(before, run);
    UnknownAreTheNewOnes(after, run);
  }
}
