/** The values that travel between the engine, the reconciler and the provider client. */
module Models {
  import opened Basics

  type Uri = string
  type Destination = string
  /** An instant or a span, in microseconds. */
  type Instant = int

  datatype Item = Item(sourceId: string, nativeId: string, uri: Uri, editionAt: Option<Instant>)
  datatype Desired = Desired(generatedAt: Instant, items: seq<Item>)

  function Uris(items: seq<Item>): (uris: seq<Uri>)
    ensures |uris| == |items| && forall i :: 0 <= i < |uris| ==> uris[i] == items[i].uri
  {
    seq(|items|, i requires 0 <= i < |items| => items[i].uri)
  }

  /** The exceptions that reconciliation can raise, by what their handlers tell apart. */
  datatype Error =
    | Api(status: nat)
    | Transport
    | Suppressed  // a transport error raised locally: rate-limit backoff is active, nothing was sent
    | Reconciliation
    | Persistence
    | Invalid
    | Crashed  // the process is gone: nothing after this point runs

  /** What one durable operation meets: it works, it raises, or the process dies before it takes effect. */
  datatype StoreFault = Works | Fails | Dies

  /** How a write to storage ends. */
  function Stored(fault: StoreFault): Outcome<Error> {
    match fault
    case Works => Pass
    case Fails => Fail(Persistence)
    case Dies => Fail(Crashed)
  }

  /** From this operation on storage works. */
  ghost predicate Reliable(faults: nat -> StoreFault, from: nat) {
    forall k :: k >= from ==> faults(k).Works?
  }

  /** SHA-256 over a canonical encoding, taken to be injective: it stands for the list it digests. */
  type Fingerprint = seq<Uri>

  function FingerprintOf(uris: seq<Uri>): Fingerprint {
    uris
  }
}
