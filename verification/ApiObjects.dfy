/** Values shared by every part of the in-memory API server: object names, object
    contents, cache entries and the errors a store or a view answers with. */
module ApiObjects {

  datatype Option<+T> = None | Some(value: T)

  datatype Result<+T> = Ok(value: T) | Err(error: Error)

  /** `NotFound` is a key that was never written; `ObjectDeleted` is a key that holds a
      tombstone.  Both satisfy the API machinery's IsNotFound test. */
  datatype Error =
    | NotFound
    | ObjectDeleted
    | BadRequest
    | EmptyPodName
    | AlreadyBound(node: string)
    | PatchFailed
    | ImmutableField

  predicate IsNotFound(e: Error) {
    e.NotFound? || e.ObjectDeleted?
  }

  /** Outcome of an operation that returns only an error in the source. */
  datatype Outcome = Done | Failed(error: Error)

  /** A namespaced name; cluster-scoped objects have the empty namespace. */
  datatype Key = Key(ns: string, name: string) {
    /** The string a tombstone is filed under. */
    function Text(): string {
      if ns == "" then name else ns + "/" + name
    }
  }

  /** An API object: identity, labels, resource version and an opaque rest. */
  datatype Obj = Obj(
    key: Key,
    generateName: string,
    labels: map<string, string>,
    version: nat,
    nodeName: string,
    podScheduled: bool,
    spec: int,
    status: int,
    deletionStamped: bool)

  /** What a cache holds at a key. */
  datatype Entry<+T> = Live(obj: T) | Tombstone(obj: T)

  type Cache = map<Key, Entry<Obj>>

  /** The five random characters appended to a generateName. */
  type Suffix = s: string | |s| == 5 witness "aaaaa"

  const MAX_NAME := 253

  function GenerateName(prefix: string, suffix: Suffix): (name: string)
    ensures 5 <= |name| <= MAX_NAME
    ensures name[|name| - 5..] == suffix && name[..|name| - 5] <= prefix
    ensures |prefix| + 5 <= MAX_NAME ==> name == prefix + suffix
    ensures |prefix| + 5 > MAX_NAME ==> |name| == MAX_NAME
  {
    var prefix' := if |prefix| + |suffix| > MAX_NAME then prefix[..MAX_NAME - |suffix|] else prefix;
    assert (prefix' + suffix)[|prefix'|..] == suffix;
    assert (prefix' + suffix)[..|prefix'|] == prefix';
    prefix' + suffix
  }
}
