/** The keyed store around one staging, as the in-memory stable store keeps it. */
module StagingStore {
  import opened Wrappers
  import opened Staging

  const MAX_STAGED_BYTES: nat := 0x4000_0000

  datatype Meta = Meta(lastIndex: nat, lastTerm: nat, conf: set<nat>, forkId: Option<nat>, shapeGen: nat)

  /** A snapshot's identity; the lineage counter is not part of it. */
  predicate IdentityEq(a: Meta, b: Meta) {
    a.lastIndex == b.lastIndex && a.lastTerm == b.lastTerm && a.conf == b.conf && a.forkId == b.forkId
  }

  /** One staged chunk with the identity and length it was sent under. */
  datatype Record = Record(meta: Meta, total: nat, chunk: Chunk)

  /** The store answers a watermark, or panics where it expects the run cap to hold. */
  datatype Outcome = Acked(through: nat) | Panicked

  ghost function ChunksOf(rs: seq<Record>): (cs: seq<Chunk>)
    ensures |cs| == |rs| && forall k :: 0 <= k < |rs| ==> cs[k] == rs[k].chunk
  {
    seq(|rs|, k requires 0 <= k < |rs| => rs[k].chunk)
  }

  lemma ChunksSnoc(rs: seq<Record>, r: Record)
    ensures ChunksOf(rs + [r]) == ChunksOf(rs) + [r.chunk]
  {
  }

  class Store {
    var meta: Meta
    var stage: SnapshotStaging?
    /** Everything staged since the last reset, oldest first. */
    ghost var records: seq<Record>

    ghost predicate Valid()
      reads this, stage, if stage != null then {stage.buf} else {}
    {
      if stage == null then records == []
      else
        && stage.Valid() && stage.buf.Length <= MAX_STAGED_BYTES
        && (forall k :: 0 <= k < |records| ==>
              IdentityEq(records[k].meta, meta) && records[k].total == stage.buf.Length)
        && stage.buf[..] == OverlayAll(seq(stage.buf.Length, _ => 0), ChunksOf(records))
        && (forall i: nat :: Covered(stage.runs, i) <==> Written(stage.buf.Length, ChunksOf(records), i))
        && Canonical(stage.runs)
    }

    constructor ()
      ensures Valid() && stage == null
    {
      meta := Meta(0, 0, {}, None, 0);
      stage := null;
      records := [];
    }

    method Discard()
      modifies this
      ensures Valid() && stage == null
    {
      stage := null;
      records := [];
    }

    /** A fresh staging of `total` bytes, unless that is over the store's cap or cannot be reserved. */
    method Begin(m: Meta, total: nat, reserved: bool) returns (ok: bool)
      modifies this
      ensures Valid() && (ok <==> total <= MAX_STAGED_BYTES && reserved)
      ensures records == []
      ensures ok ==> stage != null && fresh(stage) && fresh(stage.buf) && stage.buf.Length == total && meta == m
      ensures ok ==> Contiguous(stage.runs) == 0
      ensures !ok ==> stage == null
    {
      records := [];
      stage := SnapshotStaging.Create(m.lastIndex, total, MAX_STAGED_BYTES, reserved);
      ok := stage != null;
      if ok {
        meta := m;
        EmptyIsFaithful(total);
      }
    }

    /** The chunk goes into the staging already keyed for it. */
    method Stash(m: Meta, c: Chunk) returns (r: Outcome)
      requires Valid() && stage != null && IdentityEq(m, meta)
      modifies this`records, stage, stage.buf
      ensures r.Acked? ==> Valid() && r.through == Contiguous(stage.runs)
      ensures records == old(records) + [Record(m, stage.buf.Length, c)]
    {
      ghost var before := stage.View();
      ghost var cs := ChunksOf(records);
      var a := stage.Accept(c.offset, c.data);
      records := records + [Record(m, stage.buf.Length, c)];
      if a.None? {
        return Panicked;
      }
      r := Acked(a.value);
      ChunksSnoc(old(records), Record(m, stage.buf.Length, c));
      OverlaySnoc(seq(stage.buf.Length, _ => 0), cs, c);
      StashedIsFaithful(before.runs, stage.buf.Length, cs, c, stage.runs);
    }

    /**
      An older boundary leaves everything as it is; another identity or length starts
      over; the same key adds the chunk.
    */
    method AcceptSnapshotChunk(m: Meta, total: nat, c: Chunk, reserved: bool) returns (r: Outcome)
      requires Valid()
      modifies this, stage, if stage != null then {stage.buf} else {}
      ensures r.Acked? ==> Valid()
      ensures old(stage) != null && old(meta).lastIndex > m.lastIndex ==>
                r == Acked(0) && stage == old(stage) && meta == old(meta) && records == old(records)
                && stage.runs == old(stage.runs) && stage.buf[..] == old(stage.buf[..])
      ensures !(old(stage) != null && old(meta).lastIndex > m.lastIndex) ==>
                records == if old(stage) != null && IdentityEq(m, old(meta)) && total == old(stage).buf.Length
                           then old(records) + [Record(m, total, c)]
                           else if total > MAX_STAGED_BYTES || !reserved then []
                           else [Record(m, total, c)]
      ensures !(old(stage) != null && old(meta).lastIndex > m.lastIndex) && r.Acked? ==>
                r.through == if stage == null then 0 else Contiguous(stage.runs)
    {
      if stage != null {
        if meta.lastIndex > m.lastIndex {
          return Acked(0);
        }
        if !IdentityEq(meta, m) || stage.buf.Length != total {
          Discard();
        }
      }
      if stage == null {
        var ok := Begin(m, total, reserved);
        if !ok {
          return Acked(0);
        }
      }
      r := Stash(m, c);
    }

    /** Hands the blob over once complete, and forgets it. */
    method TakeStagedSnapshot(m: Meta) returns (r: Option<seq<Byte>>)
      requires Valid()
      modifies this
      ensures Valid()
      ensures r.None? ==> stage == old(stage) && records == old(records)
      ensures r.Some? ==> stage == null && old(stage) != null && MadeOf(m, old(records), r.value)
      ensures r.Some? <==> old(stage) != null && IdentityEq(old(meta), m)
                             && Contiguous(old(stage.runs)) == old(stage).buf.Length
    {
      if stage == null || !IdentityEq(meta, m) {
        return None;
      }
      var done := stage.IsComplete();
      if !done {
        return None;
      }
      CompleteIsMadeOf(m, meta, records, stage.runs, stage.buf[..]);
      r := Some(stage.buf[..]);
      stage := null;
      records := [];
    }
  }

  /**
    Every byte of the blob is the byte of a chunk staged under this identity and this
    length since the last reset, the last such chunk to write there.
  */
  ghost predicate MadeOf(m: Meta, rs: seq<Record>, blob: seq<Byte>) {
    && (forall k :: 0 <= k < |rs| ==> IdentityEq(rs[k].meta, m) && rs[k].total == |blob|)
    && forall i: nat :: i < |blob| ==> ByteFrom(rs, blob, i)
  }

  ghost predicate ByteFrom(rs: seq<Record>, blob: seq<Byte>, i: nat)
    requires i < |blob|
  {
    exists k: nat :: WroteLast(|blob|, ChunksOf(rs), k, i, blob[i])
  }

  lemma EmptyIsFaithful(total: nat)
    ensures OverlayAll(seq(total, _ => 0), ChunksOf([])) == seq(total, _ => 0)
    ensures forall i: nat :: !Covered([], i) && !Written(total, ChunksOf([]), i)
    ensures Canonical([])
  {
  }

  lemma StashedIsFaithful(runs: seq<Run>, total: nat, cs: seq<Chunk>, c: Chunk, runs': seq<Run>)
    requires Canonical(runs) && InsertSpec(runs, Lo(total, c), Hi(total, c), true, runs')
    requires forall i: nat :: Covered(runs, i) <==> Written(total, cs, i)
    ensures forall i: nat :: Covered(runs', i) <==> Written(total, cs + [c], i)
    ensures Canonical(runs')
  {
    var all := cs + [c];
    assert all[..|cs|] == cs && all[..|cs| + 1] == all;
    forall i: nat ensures Covered(runs', i) <==> Written(total, all, i) {
      WrittenGrows(total, all, |cs|, i);
    }
  }

  lemma CompleteIsMadeOf(m: Meta, own: Meta, rs: seq<Record>, runs: seq<Run>, blob: seq<Byte>)
    requires IdentityEq(own, m) && Canonical(runs) && Contiguous(runs) == |blob|
    requires forall k :: 0 <= k < |rs| ==> IdentityEq(rs[k].meta, own) && rs[k].total == |blob|
    requires blob == OverlayAll(seq(|blob|, _ => 0), ChunksOf(rs))
    requires forall i: nat :: Covered(runs, i) <==> Written(|blob|, ChunksOf(rs), i)
    ensures MadeOf(m, rs, blob)
  {
    ContiguousIsPrefix(runs);
    forall i: nat | i < |blob| ensures ByteFrom(rs, blob, i) {
      var k := LastWriterWins(seq(|blob|, _ => 0), ChunksOf(rs), i);
      assert WroteLast(|blob|, ChunksOf(rs), k, i, blob[i]);
    }
  }
}
