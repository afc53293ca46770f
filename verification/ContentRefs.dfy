/** References to stored content, shared by the store, the custody chain and the externalizer. */
module ContentRefs {

  datatype Namespace = Attachment | Utf8

  /** Equality of these values is exactly the source's `refsEqual`. */
  datatype Ref =
    | AttachmentRef(serverEpoch: string, sha256: string, mediaType: string, byteLength: nat)
    | ContentRef(serverEpoch: string, sha256: string, byteLength: nat)

  /** One digest directory: the namespace and the digest, without the metadata. */
  datatype Key = Key(namespace: Namespace, digest: string)

  function ContentKey(ref: Ref): (k: Key)
  {
    Key(if ref.AttachmentRef? then Attachment else Utf8, ref.sha256)
  }

  /** A hold handle: an object identity and the reference it carries. */
  datatype Hold = Hold(id: nat, ref: Ref)

  function Elements<T>(s: seq<T>): (r: set<T>) { set x | x in s }

  predicate Distinct<T(==)>(s: seq<T>) {
    forall i, j :: 0 <= i < j < |s| ==> s[i] != s[j]
  }

  /** The first hold wins its key; used on lists without two holds of one key. */
  function ByKey(holds: seq<Hold>): map<Key, Hold> {
    if holds == [] then map[]
    else ByKey(holds[..|holds| - 1])[ContentKey(holds[|holds| - 1].ref) := holds[|holds| - 1]]
  }

  function Refs(holds: seq<Hold>): (r: seq<Ref>)
    ensures |r| == |holds| && forall i :: 0 <= i < |holds| ==> r[i] == holds[i].ref
  {
    seq(|holds|, i requires 0 <= i < |holds| => holds[i].ref)
  }
}
