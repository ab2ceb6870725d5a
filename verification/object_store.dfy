/** The staging helpers of the task module, over an abstract object store: a map
    from key to stored object in one bucket, where every client call is answered
    with an HTTP status the caller supplies. */
module ObjectStore {
  import opened Wrappers
  import Paths

  newtype byte = x: int | 0 <= x < 256
  type Bytes = seq<byte>
  type Key = string

  /** A stored object: its body and the content type it was put with
      (`None` when the put passed none). */
  datatype Object = Object(body: Bytes, contentType: Option<string>)

  /** One bucket of the object store. */
  type Store = map<Key, Object>

  /** The worker's local file system: path to file contents. */
  type LocalFs = map<string, Bytes>

  /** A JSON object with string values, the only kind of dict the tasks upload. */
  type JsonDict = map<string, string>

  /** What a caller may hand to the single-object upload: a dict, a bytes value,
      or any other body the client accepts (given by the bytes it sends). */
  datatype Payload = DictPayload(fields: JsonDict) | BytesPayload(data: Bytes) | OtherPayload(raw: Bytes)

  /** The exceptions the helpers raise. */
  datatype StoreError =
    | NoSuchKey(key: Key)                 // the client call itself fails: no such object
    | BadStatus(key: Key, status: int)    // the response status is above the threshold
    | ReadFailed(path: string)            // a local file to upload cannot be opened

  /** Largest response status the helpers accept; 300 itself passes. */
  const SuccessThreshold := 300

  const JsonContentType := "application/json"
  const OctetStreamContentType := "application/octet-stream"

  predicate StatusOk(status: int)
  {
    status <= SuccessThreshold
  }

  /** Python truthiness of an optional string: `None` and `""` are false. */
  predicate Truthy(s: Option<string>)
  {
    s.Some? && s.value != ""
  }

  /** `get_file_from_s3`: the object's body, or the error raised for a missing
      object or a response status above 300. */
  function GetFile(store: Store, key: Key, status: int): (r: Result<Bytes, StoreError>)
    ensures r.Success? <==> key in store && status <= 300
    ensures r.Success? ==> r.value == store[key].body
    ensures key !in store ==> r == Failure(NoSuchKey(key))
    ensures key in store && status > 300 ==> r == Failure(BadStatus(key, status))
  {
    if key !in store then Failure(NoSuchKey(key))
    else if !StatusOk(status) then Failure(BadStatus(key, status))
    else Success(store[key].body)
  }

  /** The content type `upload_file_to_s3` sends: a caller-supplied (truthy) type
      always wins; otherwise dicts go as JSON, bytes as an octet stream, and any
      other body keeps whatever the caller passed. */
  function ContentTypeFor(payload: Payload, given: Option<string>): (t: Option<string>)
    ensures Truthy(given) ==> t == given
    ensures !Truthy(given) && payload.DictPayload? ==> t == Some(JsonContentType)
    ensures !Truthy(given) && payload.BytesPayload? ==> t == Some(OctetStreamContentType)
    ensures payload.OtherPayload? ==> t == given
  {
    match payload
    case DictPayload(_) => if Truthy(given) then given else Some(JsonContentType)
    case BytesPayload(_) => if Truthy(given) then given else Some(OctetStreamContentType)
    case OtherPayload(_) => given
  }

  /** The body `upload_file_to_s3` sends: a dict is serialised by `dumps`
      (JSON text, UTF-8 encoded); anything else is passed through unchanged. */
  function BodyFor(payload: Payload, dumps: JsonDict -> Bytes): (b: Bytes)
    ensures payload.DictPayload? ==> b == dumps(payload.fields)
    ensures payload.BytesPayload? ==> b == payload.data
    ensures payload.OtherPayload? ==> b == payload.raw
  {
    match payload
    case DictPayload(fields) => dumps(fields)
    case BytesPayload(data) => data
    case OtherPayload(raw) => raw
  }

  /** The store after a put, and whether the put raised. */
  datatype PutRun = PutRun(store: Store, outcome: Outcome<StoreError>)

  /** `upload_file_to_s3`: one put of `payload` under `key`. A status above 300
      raises and leaves the store as it was; otherwise exactly `key` now holds
      the encoded body with the inferred content type. */
  function UploadFile(store: Store, key: Key, payload: Payload, contentType: Option<string>,
                      status: int, dumps: JsonDict -> Bytes): (r: PutRun)
    ensures r.outcome.Pass? <==> status <= 300
    ensures r.outcome.Fail? ==> r.outcome.error == BadStatus(key, status) && r.store == store
    ensures r.outcome.Pass? ==> key in r.store && r.store.Keys == store.Keys + {key}
    ensures r.outcome.Pass? ==> r.store[key].body == BodyFor(payload, dumps)
    ensures r.outcome.Pass? ==> r.store[key].contentType == ContentTypeFor(payload, contentType)
    ensures forall k :: k in store && k != key ==> k in r.store && r.store[k] == store[k]
  {
    var obj := Object(BodyFor(payload, dumps), ContentTypeFor(payload, contentType));
    if StatusOk(status) then PutRun(store[key := obj], Pass)
    else PutRun(store, Fail(BadStatus(key, status)))
  }

  /** An object uploaded with a successful status reads back, with a successful
      status, as exactly the body that was sent. */
  lemma UploadThenGet(store: Store, key: Key, payload: Payload, contentType: Option<string>,
                      putStatus: int, getStatus: int, dumps: JsonDict -> Bytes)
    requires putStatus <= 300 && getStatus <= 300
    ensures GetFile(UploadFile(store, key, payload, contentType, putStatus, dumps).store, key, getStatus)
         == Success(BodyFor(payload, dumps))
  {
  }

  /** Whether the batch upload gets past file `i`: the file can be read and its
      put is answered with a successful status. */
  predicate StepOk(fs: LocalFs, paths: seq<string>, statuses: seq<int>, i: int)
    requires 0 <= i < |paths| && |statuses| == |paths|
  {
    paths[i] in fs && StatusOk(statuses[i])
  }

  /** The batch upload only sends raw bytes, so no dict is ever serialised. */
  const UnusedDumps: JsonDict -> Bytes := _ => []

  /** The store after a batch, how many files were put, and whether it raised. */
  datatype BatchRun = BatchRun(store: Store, uploaded: nat, outcome: Outcome<StoreError>)

  /** The key each file of a batch goes under: `join(dir, basename(path))`. */
  function DerivedKeys(dir: string, paths: seq<string>): (keys: seq<Key>)
    ensures |keys| == |paths|
    ensures forall i :: 0 <= i < |paths| ==> keys[i] == Paths.ObjectKey(dir, paths[i])
  {
    seq(|paths|, i requires 0 <= i < |paths| => Paths.ObjectKey(dir, paths[i]))
  }

  /** The loop of the batch upload: reads and puts each file in list order
      under its key `keys[i]` as bytes, answered with `statuses[i]`, and stops
      at the first file that cannot be read or whose put fails. */
  function PutFiles(store: Store, fs: LocalFs, paths: seq<string>, keys: seq<Key>,
                    statuses: seq<int>): (r: BatchRun)
    requires |keys| == |paths| && |statuses| == |paths|
    ensures r.uploaded <= |paths|
    ensures r.outcome.Pass? <==> r.uploaded == |paths|
    ensures forall i :: 0 <= i < r.uploaded ==> paths[i] in fs && StatusOk(statuses[i])
    ensures r.uploaded < |paths| ==> !StepOk(fs, paths, statuses, r.uploaded)
    ensures r.uploaded < |paths| && paths[r.uploaded] !in fs ==> r.outcome == Fail(ReadFailed(paths[r.uploaded]))
    ensures r.uploaded < |paths| && paths[r.uploaded] in fs
            ==> r.outcome == Fail(BadStatus(keys[r.uploaded], statuses[r.uploaded]))
    decreases |paths|
  {
    if |paths| == 0 then BatchRun(store, 0, Pass)
    else if paths[0] !in fs then BatchRun(store, 0, Fail(ReadFailed(paths[0])))
    else
      var put := UploadFile(store, keys[0], BytesPayload(fs[paths[0]]), None, statuses[0], UnusedDumps);
      if put.outcome.Fail? then BatchRun(store, 0, put.outcome)
      else
        var rest := PutFiles(put.store, fs, paths[1..], keys[1..], statuses[1..]);
        assert forall i :: 1 <= i <= rest.uploaded ==>
          StepOk(fs, paths[1..], statuses[1..], i - 1) == StepOk(fs, paths, statuses, i);
        BatchRun(rest.store, rest.uploaded + 1, rest.outcome)
  }

  /** `upload_files_to_obs`: puts each file under `join(dir, basename(path))`,
      in list order, stopping at the first file that cannot be read or whose
      put is answered above 300. */
  function UploadFiles(store: Store, fs: LocalFs, paths: seq<string>, dir: string,
                       statuses: seq<int>): (r: BatchRun)
    requires |statuses| == |paths|
    ensures r.uploaded <= |paths|
    ensures r.outcome.Pass? <==> r.uploaded == |paths|
    ensures forall i :: 0 <= i < r.uploaded ==> paths[i] in fs && StatusOk(statuses[i])
    ensures r.uploaded < |paths| ==> !StepOk(fs, paths, statuses, r.uploaded)
    ensures r.uploaded < |paths| && paths[r.uploaded] !in fs ==> r.outcome == Fail(ReadFailed(paths[r.uploaded]))
    ensures r.uploaded < |paths| && paths[r.uploaded] in fs
            ==> r.outcome == Fail(BadStatus(Paths.ObjectKey(dir, paths[r.uploaded]), statuses[r.uploaded]))
  {
    PutFiles(store, fs, paths, DerivedKeys(dir, paths), statuses)
  }

  /** One successful put: the key written and the object stored under it. */
  datatype Put = Put(key: Key, obj: Object)

  /** Reference semantics of a run of successful puts: apply them in order, a
      later put to a key replacing an earlier one. */
  function ApplyPuts(store: Store, puts: seq<Put>): Store
    decreases |puts|
  {
    if |puts| == 0 then store
    else ApplyPuts(store[puts[0].key := puts[0].obj], puts[1..])
  }

  /** The puts the loop makes for its first `n` files, all readable: each
      file's contents as an octet stream under its key. */
  function KeyedPuts(fs: LocalFs, paths: seq<string>, keys: seq<Key>, n: nat): (puts: seq<Put>)
    requires n <= |paths| && |keys| == |paths|
    requires forall i :: 0 <= i < n ==> paths[i] in fs
    ensures |puts| == n
    ensures forall i :: 0 <= i < n ==> puts[i] == Put(keys[i], Object(fs[paths[i]], Some(OctetStreamContentType)))
  {
    seq(n, i requires 0 <= i < n => Put(keys[i], Object(fs[paths[i]], Some(OctetStreamContentType))))
  }

  /** The puts a batch makes for its first `n` files, all readable: each
      file's contents as an octet stream under its derived key. */
  function FilePuts(fs: LocalFs, dir: string, paths: seq<string>, n: nat): (puts: seq<Put>)
    requires n <= |paths|
    requires forall i :: 0 <= i < n ==> paths[i] in fs
    ensures |puts| == n
    ensures forall i :: 0 <= i < n ==>
              puts[i] == Put(Paths.ObjectKey(dir, paths[i]), Object(fs[paths[i]], Some(OctetStreamContentType)))
  {
    KeyedPuts(fs, paths, DerivedKeys(dir, paths), n)
  }

  /** The keys a list of puts writes. */
  function KeysOf(puts: seq<Put>): set<Key>
  {
    set i | 0 <= i < |puts| :: puts[i].key
  }

  /** No later put in the list writes the key of put `i`. */
  predicate LastWriter(puts: seq<Put>, i: int)
    requires 0 <= i < |puts|
  {
    forall j :: i < j < |puts| ==> puts[j].key != puts[i].key
  }

  /** The loop performs exactly the puts of the files before the first
      failure, in list order, and nothing else. */
  lemma {:induction false} PutFilesWritesPrefix(store: Store, fs: LocalFs, paths: seq<string>, keys: seq<Key>,
                                               statuses: seq<int>)
    requires |keys| == |paths| && |statuses| == |paths|
    ensures var r := PutFiles(store, fs, paths, keys, statuses);
            r.store == ApplyPuts(store, KeyedPuts(fs, paths, keys, r.uploaded))
    decreases |paths|
  {
    var r := PutFiles(store, fs, paths, keys, statuses);
    if |paths| > 0 && paths[0] in fs && StatusOk(statuses[0]) {
      var put := UploadFile(store, keys[0], BytesPayload(fs[paths[0]]), None, statuses[0], UnusedDumps);
      PutFilesWritesPrefix(put.store, fs, paths[1..], keys[1..], statuses[1..]);
      var rest := PutFiles(put.store, fs, paths[1..], keys[1..], statuses[1..]);
      var puts := KeyedPuts(fs, paths, keys, r.uploaded);
      assert puts[1..] == KeyedPuts(fs, paths[1..], keys[1..], rest.uploaded);
    }
  }

  /** The batch upload performs exactly the puts of the files before the first
      failure, in list order, and nothing else. */
  lemma UploadFilesWritesPrefix(store: Store, fs: LocalFs, paths: seq<string>, dir: string,
                                statuses: seq<int>)
    requires |statuses| == |paths|
    ensures var r := UploadFiles(store, fs, paths, dir, statuses);
            r.store == ApplyPuts(store, FilePuts(fs, dir, paths, r.uploaded))
  {
    PutFilesWritesPrefix(store, fs, paths, DerivedKeys(dir, paths), statuses);
  }

  /** What a run of puts leaves in the store: each written key holds the object
      last put under it; every other key is untouched. */
  lemma {:induction false} ApplyPutsContents(store: Store, puts: seq<Put>)
    ensures forall k :: k !in KeysOf(puts) ==>
              (k in ApplyPuts(store, puts) <==> k in store)
              && (k in store ==> ApplyPuts(store, puts)[k] == store[k])
    ensures forall i :: 0 <= i < |puts| && LastWriter(puts, i) ==>
              puts[i].key in ApplyPuts(store, puts) && ApplyPuts(store, puts)[puts[i].key] == puts[i].obj
    decreases |puts|
  {
    if |puts| > 0 {
      var store' := store[puts[0].key := puts[0].obj];
      var tail := puts[1..];
      ApplyPutsContents(store', tail);
      var w := ApplyPuts(store, puts);
      assert w == ApplyPuts(store', tail);
      assert KeysOf(puts) == KeysOf(tail) + {puts[0].key} by {
        forall k | k in KeysOf(puts) ensures k in KeysOf(tail) + {puts[0].key} {
          var i :| 0 <= i < |puts| && k == puts[i].key;
          if i > 0 { assert k == tail[i - 1].key; }
        }
        forall k | k in KeysOf(tail) ensures k in KeysOf(puts) {
          var i :| 0 <= i < |tail| && k == tail[i].key;
          assert k == puts[i + 1].key;
        }
      }
      forall i | 0 <= i < |puts| && LastWriter(puts, i)
        ensures puts[i].key in w && w[puts[i].key] == puts[i].obj
      {
        if i == 0 {
          assert puts[0].key !in KeysOf(tail) by {
            forall j | 0 <= j < |tail| ensures tail[j].key != puts[0].key {
              assert tail[j] == puts[j + 1];
            }
          }
        } else {
          assert tail[i - 1] == puts[i];
          assert LastWriter(tail, i - 1) by {
            forall j | i - 1 < j < |tail| ensures tail[j].key != tail[i - 1].key {
              assert tail[j] == puts[j + 1];
            }
          }
        }
      }
    }
  }

  /** Files after the first failure are never written: a key that no file
      before the failure maps to keeps its previous contents, and the last
      file put under each key before the failure is what that key holds. */
  lemma BatchContents(store: Store, fs: LocalFs, paths: seq<string>, dir: string,
                      statuses: seq<int>)
    requires |statuses| == |paths|
    ensures var r := UploadFiles(store, fs, paths, dir, statuses);
            forall k :: k !in KeysOf(FilePuts(fs, dir, paths, r.uploaded)) ==>
              (k in r.store <==> k in store) && (k in store ==> r.store[k] == store[k])
    ensures var r := UploadFiles(store, fs, paths, dir, statuses);
            forall i :: 0 <= i < r.uploaded && LastWriter(FilePuts(fs, dir, paths, r.uploaded), i) ==>
              Paths.ObjectKey(dir, paths[i]) in r.store
              && r.store[Paths.ObjectKey(dir, paths[i])] == Object(fs[paths[i]], Some(OctetStreamContentType))
  {
    var r := UploadFiles(store, fs, paths, dir, statuses);
    UploadFilesWritesPrefix(store, fs, paths, dir, statuses);
    var puts := FilePuts(fs, dir, paths, r.uploaded);
    ApplyPutsContents(store, puts);
  }
}
