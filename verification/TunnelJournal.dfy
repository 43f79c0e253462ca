/** The durable transaction journal, its decoder, and the choice between the
    primary file and the previous good one. */
module TunnelJournal {
  import opened Wrappers
  import opened RoutingOwnership
  import opened Text

  const SCHEMA := 1

  datatype Phase = Prepared | Active | Recovering | CleanPhase | AbortedPhase | UnknownPhase(name: string)

  datatype Journal = Journal(
    schema: int,
    phase: Phase,
    op: string,
    pid: int,
    identity: string,
    before: Snapshot,
    active: Option<Snapshot>,
    owned: Owned,
    fromBackup: bool) // runtime-only, never written

  /** File contents: a JSON document of the journal's shape, or anything else. */
  datatype Content = Malformed | Document(journal: Journal)

  datatype Disk = Disk(primary: Option<Content>, backup: Option<Content>, lastClean: Option<Content>)

  /** Nothing is left after trimming white space. */
  predicate Blank(s: string) {
    forall c | c in s :: IsSpace(c)
  }

  predicate KnownPhase(p: Phase) {
    !p.UnknownPhase?
  }

  /** A transaction that still has to be completed or recovered. */
  predicate Open(j: Journal) {
    j.phase.Prepared? || j.phase.Active? || j.phase.Recovering?
  }

  function Encode(j: Journal): Content {
    Document(j.(fromBackup := false))
  }

  function Decode(c: Content): Option<Journal> {
    match c
    case Malformed => None
    case Document(j) =>
      if j.schema != SCHEMA || Blank(j.op) || !KnownPhase(j.phase) then None
      else Some(j.(fromBackup := false))
  }

  function DecodeSlot(slot: Option<Content>): Option<Journal> {
    if slot.Some? then Decode(slot.value) else None
  }

  /** A journal survives the file exactly when the decoder's checks accept it;
      only the runtime flag is lost. */
  lemma DecodeInvertsEncode(j: Journal)
    ensures Decode(Encode(j)) == Some(j.(fromBackup := false)) <==>
            j.schema == SCHEMA && !Blank(j.op) && KnownPhase(j.phase)
    ensures Decode(Encode(j)).None? <==> !(j.schema == SCHEMA && !Blank(j.op) && KnownPhase(j.phase))
  {
  }

  datatype Loaded = Nothing | Found(journal: Journal) | Invalid

  /** loadTunnelJournal on readable files. */
  function Load(d: Disk): Loaded {
    if d.primary.None? then Nothing
    else
      match Decode(d.primary.value)
      case Some(j) => Found(j)
      case None =>
        match DecodeSlot(d.backup)
        case None => Invalid
        case Some(b) =>
          match DecodeSlot(d.lastClean)
          case Some(clean) => if clean.op == b.op then Invalid else Found(b.(fromBackup := true))
          case None => Found(b.(fromBackup := true))
  }

  /** Nothing is reported only for an absent primary: every unreadable state
      fails closed instead of looking finished. */
  lemma LoadFailsClosed(d: Disk)
    ensures Load(d).Nothing? <==> d.primary.None?
    ensures Load(d).Found? ==> KnownPhase(Load(d).journal.phase) && Load(d).journal.schema == SCHEMA && !Blank(Load(d).journal.op)
  {
  }

  /** The fallback answers only when the primary is unreadable, and never with an
      operation already recorded as clean. */
  lemma FallbackIsGuarded(d: Disk)
    requires Load(d).Found? && Load(d).journal.fromBackup
    ensures d.primary.Some? && Decode(d.primary.value).None?
    ensures DecodeSlot(d.backup) == Some(Load(d).journal.(fromBackup := false))
    ensures forall c :: DecodeSlot(d.lastClean) == Some(c) ==> c.op != Load(d).journal.op
  {
  }
}
