/** The rows the publication activator reads and writes for one channel. */
module Publication {
  import opened Prelude

  type Hash = string

  datatype Domain = Channel | Video | Agent

  datatype Kind = Bootstrap | Incremental | Repair | Retraction

  /** A video item; `body` stands for item_hash and every further field of the JSON object. */
  datatype Item = Item(contentId: string, position: int, body: string)

  /** A window exit or a retraction, or one historical retraction of a recovery bootstrap. */
  datatype Removal = Removal(contentId: string, reason: string)

  /** payload_json: channel and agent revisions are read whole, video revisions through the lists. */
  datatype Document = Document(
    body: string,
    policy: string,
    items: seq<Item>,
    upserts: seq<Item>,
    exits: seq<Removal>,
    retractions: seq<Removal>)

  /** source_json.dead_letter_recovery: is its version the supported one, is its evidence hash canonical. */
  datatype Recovery = Recovery(supported: bool, evidenced: bool, retractions: seq<Removal>)

  /** The immutable envelope of one revision row. */
  datatype Revision = Revision(
    id: string,
    stream: string,
    domain: Domain,
    sequence: nat,
    previousSequence: Option<nat>,
    kind: Kind,
    previousHash: Option<Hash>,
    resultHash: Hash,
    document: Document,
    recovery: Option<Recovery>)

  datatype Status = Staged | WaitingGap | WaitingOwnership | Active | Quarantined | Superseded

  /** A revision row: the envelope, validation_status = 'valid', activation_status. */
  datatype Row = Row(revision: Revision, valid: bool, status: Status)

  /** The unique key of publication.revision within one channel. */
  datatype Key = Key(stream: string, domain: Domain, sequence: nat)

  datatype Cursor = Cursor(stream: string, sequence: nat, revisionId: string, hash: Hash)

  /** The two hash functions, left uninterpreted; hashing a video window may throw. */
  datatype Digest = Digest(facts: Document -> Hash, window: (string, seq<Item>) -> Option<Hash>)

  predicate Pending(status: Status) {
    status == Staged || status == WaitingGap || status == WaitingOwnership
  }

  function KeyOf(r: Revision): Key {
    Key(r.stream, r.domain, r.sequence)
  }

  function CursorOf(r: Revision): Cursor {
    Cursor(r.stream, r.sequence, r.id, r.resultHash)
  }

  ghost predicate StrictlySorted(rows: seq<Revision>) {
    |rows| > 1 ==> rows[0].sequence < rows[1].sequence && StrictlySorted(rows[1..])
  }

  lemma {:induction false} SortedPair(rows: seq<Revision>, i: nat, j: nat)
    requires StrictlySorted(rows) && i < j < |rows|
    ensures rows[i].sequence < rows[j].sequence
  {
    if i > 0 {
      SortedPair(rows[1..], i - 1, j - 1);
    } else if j > 1 {
      SortedPair(rows[1..], 0, j - 1);
    }
  }
}
