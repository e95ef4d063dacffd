/** What the controllers share: optional values, replies of the API server, and reconcile results. */
module Api {
  datatype Option<+T> = None | Some(value: T)

  /** The reply to a Get: an object, a not-found error, or any other error. */
  datatype Reply<+T> = Found(value: T) | NotFound | Failed

  /** The three results the reconcilers of this repository return. */
  datatype SyncState = Success | Error | ErrorNoRetry

  /** A namespaced name. */
  datatype Key = Key(ns: string, name: string)

  /**
    How the API server treats the two write endpoints of a kind.
    Merged: either endpoint stores the whole object, which is what the reconcilers rely on.
    Separate: the status subresource is on, so the main endpoint keeps the stored status and
    the status endpoint keeps everything but the status.
   */
  datatype Endpoints = Merged | Separate

  /** The JSON of a Go client leaves out a list with the omitempty option that has no elements: nil comes back. */
  function OnWire<T>(list: Option<seq<T>>): Option<seq<T>> {
    if list == Some([]) then None else list
  }

  /** One field of a status: copied, and noted as a change, when it differs. */
  method CopyField<T(==)>(spec: T, status: T, changed: bool) returns (newStatus: T, newChanged: bool)
    ensures newStatus == spec
    ensures newChanged <==> changed || status != spec
  {
    newStatus, newChanged := status, changed;
    if status != spec {
      newStatus, newChanged := spec, true;
    }
  }
}
