/**
 The sequential upload buffer: an append-only run of bytes that accepts the next chunk or
 an exact retry of a committed one, and rejects gaps, partial overlaps and conflicts.
 */
module Uploads {
  import opened Wrappers
  import opened Text
  import opened ContentRanges

  type byte = b: int | 0 <= b < 256

  /** Pointers are 64 bits wide, so every 64-bit length fits a buffer index. */
  const USIZE_MAX: nat := U64_MAX

  datatype AppendOutcome = AppendOutcome(offset: nat, complete: bool, replayed: bool)

  datatype UploadError =
    | TotalChanged(expected: nat, actual: nat)
    | BodyLength(expected: nat, actual: nat)
    | Gap(expectedStart: nat, actualStart: nat)
    | PartialOverlap(committed: nat, start: nat, endExclusive: nat)
    | ConflictingReplay(start: nat, endExclusive: nat)
    | ChunkTooLarge

  datatype UploadState = UploadState(total: nat, bytes: seq<byte>) {
    function Offset(): nat { |bytes| }
    predicate IsComplete() { Offset() == total }
  }

  function Outcome(u: UploadState, replayed: bool): AppendOutcome {
    AppendOutcome(u.Offset(), u.IsComplete(), replayed)
  }

  /** The bytes have exactly this chunk at the place of this range. */
  predicate Holds(bytes: seq<byte>, range: FieldRange, chunk: seq<byte>) {
    range.endExclusive <= |bytes| && bytes[range.start..range.endExclusive] == chunk
  }

  /** The buffer after one request body, and the answer to that request. */
  function AppendTo(u: UploadState, range: FieldRange, chunk: seq<byte>)
    : (r: (UploadState, Result<AppendOutcome, UploadError>))
  {
    if range.total != u.total then (u, Failure(TotalChanged(u.total, range.total)))
    else if Len(range) > USIZE_MAX then (u, Failure(ChunkTooLarge))
    else if |chunk| != Len(range) then (u, Failure(BodyLength(Len(range), |chunk|)))
    else if range.start > u.Offset() then (u, Failure(Gap(u.Offset(), range.start)))
    else if range.start < u.Offset() then
      if range.endExclusive > u.Offset() then
        (u, Failure(PartialOverlap(u.Offset(), range.start, range.endExclusive)))
      else if range.start > USIZE_MAX || range.endExclusive > USIZE_MAX then
        (u, Failure(ChunkTooLarge))
      else if !Holds(u.bytes, range, chunk) then
        (u, Failure(ConflictingReplay(range.start, range.endExclusive)))
      else (u, Success(Outcome(u, true)))
    else
      var grown := u.(bytes := u.bytes + chunk);
      (grown, Success(Outcome(grown, false)))
  }

  /** The buffer as the server keeps it: a fixed total and bytes that grow in place. */
  class UploadBuffer {
    const total: nat
    var bytes: seq<byte>

    ghost function Value(): UploadState
      reads this
    {
      UploadState(total, bytes)
    }

    constructor (total: nat)
      ensures Value() == UploadState(total, [])
    {
      this.total := total;
      this.bytes := [];
    }

    function Offset(): (n: nat)
      reads this
      ensures n == Value().Offset()
    {
      |bytes|
    }

    predicate IsComplete()
      reads this
      ensures IsComplete() == Value().IsComplete()
    {
      Offset() == total
    }

    method Append(range: FieldRange, chunk: seq<byte>)
      returns (r: Result<AppendOutcome, UploadError>)
      modifies this
      ensures (Value(), r) == AppendTo(old(Value()), range, chunk)
    {
      if range.total != total {
        return Failure(TotalChanged(total, range.total));
      }
      if Len(range) > USIZE_MAX {
        return Failure(ChunkTooLarge);
      }
      if |chunk| != Len(range) {
        return Failure(BodyLength(Len(range), |chunk|));
      }
      var offset := Offset();
      if range.start > offset {
        return Failure(Gap(offset, range.start));
      }
      if range.start < offset {
        if range.endExclusive > offset {
          return Failure(PartialOverlap(offset, range.start, range.endExclusive));
        }
        if range.start > USIZE_MAX || range.endExclusive > USIZE_MAX {
          return Failure(ChunkTooLarge);
        }
        if bytes[range.start..range.endExclusive] != chunk {
          return Failure(ConflictingReplay(range.start, range.endExclusive));
        }
        return Success(AppendOutcome(offset, IsComplete(), true));
      }
      bytes := bytes + chunk;
      return Success(AppendOutcome(Offset(), IsComplete(), false));
    }
  }

  // ------------------------------------------------------------ whole sessions

  /** Every request ever sent to one buffer, oldest innermost, accepted or not. */
  datatype Session =
    | Opened(total: nat)
    | Put(before: Session, range: FieldRange, chunk: seq<byte>)

  function Contents(s: Session): UploadState {
    match s
    case Opened(total) => UploadState(total, [])
    case Put(before, range, chunk) => AppendTo(Contents(before), range, chunk).0
  }

  /** The answer to the last request of a session. */
  function Answer(s: Session): Result<AppendOutcome, UploadError>
    requires s.Put?
  {
    AppendTo(Contents(s.before), s.range, s.chunk).1
  }

  predicate IsFresh(s: Session)
    requires s.Put?
  {
    Answer(s).Success? && !Answer(s).value.replayed
  }

  /** The bodies that were stored rather than recognised or refused, in commit order. */
  function FreshBodies(s: Session): seq<byte> {
    match s
    case Opened(_) => []
    case Put(before, _, chunk) => FreshBodies(before) + if IsFresh(s) then chunk else []
  }

  function FreshCount(s: Session): nat {
    match s
    case Opened(_) => 0
    case Put(before, _, _) => FreshCount(before) + if IsFresh(s) then 1 else 0
  }

  /** Some request of the session was accepted with this range and body. */
  ghost predicate Accepted(s: Session, range: FieldRange, chunk: seq<byte>) {
    s.Put? && (Accepted(s.before, range, chunk)
               || (s.range == range && s.chunk == chunk && Answer(s).Success?))
  }

  function Extended(u: UploadState, chunk: seq<byte>): UploadState {
    u.(bytes := u.bytes + chunk)
  }

  /**
   What one request can do: an accepted one lies inside the buffer afterwards and reads back
   its body; only a fresh one changes the buffer, by appending its body at the old end, and it
   stays within the total exactly when its range does.
   */
  lemma AppendFacts(u: UploadState, range: FieldRange, chunk: seq<byte>)
    ensures var (v, r) := AppendTo(u, range, chunk);
            && v.total == u.total
            && u.bytes <= v.bytes
            && (r.Failure? || r.value.replayed ==> v == u)
            && (r.Success? ==>
                && range.total == u.total
                && |chunk| == Len(range)
                && r.value == Outcome(v, r.value.replayed)
                && Holds(v.bytes, range, chunk))
            && (r.Success? && !r.value.replayed ==>
                && v == Extended(u, chunk)
                && range.start == u.Offset()
                && range.endExclusive == v.Offset()
                && (v.Offset() <= v.total <==> range.endExclusive <= range.total))
  {
  }

  /** Which refusal a request gets: the first of these that applies. */
  lemma AppendRefusals(u: UploadState, range: FieldRange, chunk: seq<byte>)
    ensures var r := AppendTo(u, range, chunk).1;
            && (range.total != u.total <==> r == Failure(TotalChanged(u.total, range.total)))
            && r != Failure(ChunkTooLarge)
            && (range.total == u.total ==>
                  var length := range.endExclusive - range.start;
                  && (|chunk| != length <==> r == Failure(BodyLength(length, |chunk|)))
                  && (|chunk| == length ==>
                        && (range.start > u.Offset() <==> r == Failure(Gap(u.Offset(), range.start)))
                        && (range.start < u.Offset() < range.endExclusive <==>
                            r == Failure(PartialOverlap(u.Offset(), range.start, range.endExclusive)))
                        && ((range.start < u.Offset() && range.endExclusive <= u.Offset()
                             && !Holds(u.bytes, range, chunk))
                            <==> r == Failure(ConflictingReplay(range.start, range.endExclusive)))))
  {
    hide Holds;
  }

  /** Every range of the session is one that a request can carry. */
  predicate CarriesRanges(s: Session) {
    s.Put? ==> s.range.Valid() && CarriesRanges(s.before)
  }

  /**
   The life of a buffer: its total never changes and it holds exactly the fresh bodies in order.
   With the ranges a request can carry it never overflows, and a positive total allows at most
   that many fresh requests.
   */
  lemma {:induction false} SessionInvariant(s: Session)
    ensures Contents(s).bytes == FreshBodies(s)
    ensures CarriesRanges(s) ==>
              var u := Contents(s);
              u.Offset() <= u.total && (u.total > 0 ==> FreshCount(s) <= u.Offset())
  {
    if s.Put? {
      SessionInvariant(s.before);
      hide AppendTo, Holds;
      AppendFacts(Contents(s.before), s.range, s.chunk);
    }
  }

  /** Whatever was once accepted, fresh or replayed, reads back at its own range forever. */
  lemma {:induction false} AcceptedReadsBack(s: Session, range: FieldRange, chunk: seq<byte>)
    requires Accepted(s, range, chunk)
    ensures Holds(Contents(s).bytes, range, chunk)
  {
    var u, v := Contents(s.before), Contents(s);
    hide AppendTo, Holds;
    AppendFacts(u, s.range, s.chunk);
    if Accepted(s.before, range, chunk) {
      AcceptedReadsBack(s.before, range, chunk);
      HoldsOn(u.bytes, v.bytes, range, chunk);
    }
  }

  lemma HoldsOn(shorter: seq<byte>, longer: seq<byte>, range: FieldRange, chunk: seq<byte>)
    requires shorter <= longer && Holds(shorter, range, chunk)
    ensures Holds(longer, range, chunk)
  {
    SlicesSurvive(shorter, longer, range.start, range.endExclusive);
  }

  lemma AppendedHolds(bytes: seq<byte>, range: FieldRange, chunk: seq<byte>)
    requires range.start == |bytes| && |chunk| == Len(range)
    ensures Holds(bytes + chunk, range, chunk)
  {
  }

  lemma SlicesSurvive(shorter: seq<byte>, longer: seq<byte>, start: nat, end: nat)
    requires shorter <= longer && start <= end <= |shorter|
    ensures longer[start..end] == shorter[start..end]
  {
    assert longer[..|shorter|][start..end] == longer[start..end];
  }

  /** The bound on fresh requests needs a positive total: an empty file accepts any number. */
  function EmptyPuts(n: nat): Session {
    if n == 0 then Opened(0) else Put(EmptyPuts(n - 1), Whole(0), [])
  }

  /** The next chunk is always taken, whatever its length. */
  lemma AppendsAtOffset(u: UploadState, range: FieldRange, chunk: seq<byte>)
    requires range.start == u.Offset() && range.total == u.total && |chunk| == Len(range)
    ensures AppendTo(u, range, chunk) == (Extended(u, chunk), Success(Outcome(Extended(u, chunk), false)))
  {
  }

  lemma WholeIsAll(total: nat)
    requires total <= U64_MAX
    ensures var r := Whole(total);
            r.start == 0 && r.start <= r.endExclusive <= U64_MAX && r.total == total == Len(r)
  {
  }

  lemma {:induction false} EmptyFilesAcceptForever(n: nat)
    ensures FreshCount(EmptyPuts(n)) == n && Contents(EmptyPuts(n)) == UploadState(0, [])
  {
    hide AppendTo, Whole, Len, RawRange.Valid;
    if n > 0 {
      EmptyFilesAcceptForever(n - 1);
      WholeIsAll(0);
      AppendsAtOffset(Contents(EmptyPuts(n - 1)), Whole(0), []);
    }
  }

  // ------------------------------------------------------------------- resuming

  predicate IsSliceOf(range: FieldRange, chunk: seq<byte>, source: seq<byte>) {
    range.total == |source| && Holds(source, range, chunk)
  }

  /**
   Every request carries a slice of one source. Nothing is said about chunk sizes, order,
   repetition, or which slices arrive at all.
   */
  predicate SendsSlicesOf(s: Session, source: seq<byte>) {
    match s
    case Opened(total) => total == |source|
    case Put(before, range, chunk) => SendsSlicesOf(before, source) && IsSliceOf(range, chunk, source)
  }

  /** One slice of the source against a buffer that already holds a prefix of it. */
  lemma SliceAppend(u: UploadState, range: FieldRange, chunk: seq<byte>, source: seq<byte>)
    requires u.total == |source| && u.bytes <= source && IsSliceOf(range, chunk, source)
    ensures var (v, r) := AppendTo(u, range, chunk);
            && v.bytes <= source
            && (r.Failure? ==> r.error.Gap? || r.error.PartialOverlap?)
            && (range.start == u.Offset() ==> r.Success? && !r.value.replayed)
  {
    if range.start == u.Offset() {
      assert u.bytes == source[..u.Offset()];
      assert u.bytes + chunk == source[..range.endExclusive];
    } else if range.endExclusive <= u.Offset() {
      SlicesSurvive(u.bytes, source, range.start, range.endExclusive);
    }
  }

  /** What is stored is always a prefix of the source, and completion means all of it. */
  lemma {:induction false} StoredIsPrefix(s: Session, source: seq<byte>)
    requires SendsSlicesOf(s, source)
    ensures var u := Contents(s);
            u.total == |source| && u.bytes <= source && (u.IsComplete() ==> u.bytes == source)
  {
    if s.Put? {
      var u := Contents(s.before);
      StoredIsPrefix(s.before, source);
      SliceAppend(u, s.range, s.chunk, source);
      assert Contents(s) == AppendTo(u, s.range, s.chunk).0;
    }
  }

  /** A slice is never taken for a conflict, and one that starts at the offset is always stored. */
  lemma SlicesNeverConflict(s: Session, source: seq<byte>)
    requires s.Put? && SendsSlicesOf(s, source)
    ensures Answer(s).Failure? ==> Answer(s).error.Gap? || Answer(s).error.PartialOverlap?
    ensures s.range.start == Contents(s.before).Offset() ==> IsFresh(s)
  {
    StoredIsPrefix(s.before, source);
    SliceAppend(Contents(s.before), s.range, s.chunk, source);
  }

  lemma NextPieceAdvances(s: Session, source: seq<byte>, end: nat)
    requires SendsSlicesOf(s, source) && Contents(s).Offset() < end <= |source| <= U64_MAX
    ensures var offset := Contents(s).Offset();
            var next := Put(s, RawRange(offset, end, |source|), source[offset..end]);
            SendsSlicesOf(next, source) && Contents(next).Offset() == end
  {
    StoredIsPrefix(s, source);
  }

  /** A client that probes, then sends the next piece of at most `piece` bytes, until done. */
  ghost function Resume(s: Session, source: seq<byte>, piece: nat): Session
    requires SendsSlicesOf(s, source) && piece > 0 && |source| <= U64_MAX
    decreases |source| - Contents(s).Offset()
  {
    StoredIsPrefix(s, source);
    var offset := Contents(s).Offset();
    if offset == |source| then s else
    var end := if piece < |source| - offset then offset + piece else |source|;
    var next := Put(s, RawRange(offset, end, |source|), source[offset..end]);
    NextPieceAdvances(s, source, end);
    Resume(next, source, piece)
  }

  function Requests(s: Session): nat {
    if s.Put? then Requests(s.before) + 1 else 0
  }

  /** From any state a broken client may have left behind, resuming delivers the source. */
  lemma {:induction false} ResumeConverges(s: Session, source: seq<byte>, piece: nat)
    requires SendsSlicesOf(s, source) && piece > 0 && |source| <= U64_MAX
    ensures Contents(Resume(s, source, piece)) == UploadState(|source|, source)
    ensures Requests(Resume(s, source, piece)) <= Requests(s) + (|source| - Contents(s).Offset())
    decreases |source| - Contents(s).Offset()
  {
    StoredIsPrefix(s, source);
    var offset := Contents(s).Offset();
    if offset < |source| {
      var end := if piece < |source| - offset then offset + piece else |source|;
      var next := Put(s, RawRange(offset, end, |source|), source[offset..end]);
      NextPieceAdvances(s, source, end);
      ResumeConverges(next, source, piece);
    }
  }
}
