/**
 * The decision inside `require_admin` (ecomsync/utils.py): hash the stripped
 * `access-Key` header (empty when absent) and compare it with the key of the
 * first admin row of the ApiKey table. With no admin row the lookup yields
 * nothing and reading its key raises, which the framework reports as a
 * server error.
 */
module Auth {
  import opened Wrappers
  import opened Text
  import opened Models
  import opened Tables

  datatype Guard = Admitted | Refused | NoAdminKey

  /** The key hash the guard computes from the request's header. */
  function PresentedHash(sha256: string -> Digest, header: Option<string>): Digest {
    KeyHash(sha256, Strip(IsSpace, header.GetOr("")))
  }

  /** Whether the wrapped handler runs (`Admitted`), is refused (Forbidden), or the lookup fails. */
  function AdminCheck(sha256: string -> Digest, header: Option<string>, keys: seq<ApiKey>): (g: Guard)
    ensures g == NoAdminKey <==> forall i :: 0 <= i < |keys| ==> !keys[i].admin
    ensures g == Admitted <==>
      exists i :: 0 <= i < |keys| && keys[i].admin && (forall j :: 0 <= j < i ==> !keys[j].admin)
                  && keys[i].key == PresentedHash(sha256, header)
  {
    match IndexOf(keys, AdminFlag, true)
    case None => NoAdminKey
    case Some(i) => if PresentedHash(sha256, header) == keys[i].key then Admitted else Refused
  }

  /** A missing header is treated as an empty one. */
  lemma MissingHeaderIsEmpty(sha256: string -> Digest, keys: seq<ApiKey>)
    ensures AdminCheck(sha256, None, keys) == AdminCheck(sha256, Some(""), keys)
  {
  }

  /** Whitespace around the header value never changes the decision. */
  lemma AdminCheckIgnoresPadding(sha256: string -> Digest, key: string, ws1: string, ws2: string, keys: seq<ApiKey>)
    requires AllSpace(IsSpace, ws1) && AllSpace(IsSpace, ws2)
    ensures AdminCheck(sha256, Some(ws1 + key + ws2), keys) == AdminCheck(sha256, Some(key), keys)
  {
    StripPadded(IsSpace, ws1, key, ws2);
  }

  /** Only the first admin row is consulted: a match with a later admin row does not admit. */
  lemma OnlyFirstAdminCounts(sha256: string -> Digest, header: Option<string>, keys: seq<ApiKey>, i: nat)
    requires i < |keys| && keys[i].admin && (forall j :: 0 <= j < i ==> !keys[j].admin)
    requires keys[i].key != PresentedHash(sha256, header)
    ensures AdminCheck(sha256, header, keys) == Refused
  {
    assert IndexOf(keys, AdminFlag, true) == Some(i);
  }
}
