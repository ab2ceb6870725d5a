# taskJoker orchestration core in Dafny

This project models the decision logic of the taskJoker inference service. The
service accepts a `(uid, cid)` pair for a CT case and enqueues a segmentation
task for it. A worker stages the case's input volume from an object store, runs
a compute command and reports an output location. Callers then poll the task's
state. What is modelled:

- **Object-store staging helpers** (`ObjectStore`). The store is one bucket,
  a map from key to `Object(body, contentType)`. Every client call is answered
  with an HTTP status that the caller supplies:
  - `get_file_from_s3` is `GetFile`;
  - `upload_file_to_s3` is `UploadFile`, with `ContentTypeFor` and `BodyFor`;
  - `upload_files_to_obs` is `UploadFiles`: it derives each file's key and runs the loop `PutFiles`, which stops at the first failure.

  The loop is related to a reference semantics, `ApplyPuts` over `FilePuts`, which applies the successful puts in order.
- **Key derivation** (`Paths`, `Config`):
  - `os.path.basename` and `os.path.join` as the batch upload uses them;
  - the two prefix builders of the configuration;
  - a parser that recovers `(uid, cid)` from a prefix, as the builders' partner.
- **Task bodies** (`Tasks`). `run_nnunet` and `run_plane` take the prefix builder as a parameter. The worker configuration is the set of keys it holds, read in the order the tasks read them. External effects are outcome values:
  - the status of each store call;
  - the compute command's return code and stderr;
  - whether the landmark analysis raised.

  The as-written forms, which look the builder up under `obs_prefix`, are kept
  beside them (see Findings).
- **Front door** (`Gateway`). `predict()` is a function from request body,
  queue and broker answer to a new queue and a reply. `result()` is the
  three-way projection of a task's recorded state. Lemmas connect both to the
  task bodies.

`Wrappers` holds the
`Option`/`Result`/`Outcome` datatypes that stand for Python's `None` and its
exceptions.

Facts about the code that a reader might not expect:

- `predict()` only requires both keys to be present, so an empty `uid` or
  `cid` is accepted.
- The helpers fail only for a status above 300, so status 300 itself passes.
- `result()` reports an unknown task id as `PENDING`, because the result
  backend answers that for ids it has never seen.
- No handler in `main.py` enqueues `run_plane`.

## Model

| member | source | states |
|---|---|---|
| `ObjectStore.GetFile` | task/task.py:22-26 | Returns the stored body exactly when the key exists and the status is at most 300, so status 300 passes. A missing key raises `NoSuchKey`; a status above 300 raises `BadStatus` |
| `ObjectStore.ContentTypeFor` | task/task.py:40-45 | A truthy content type from the caller always wins. Otherwise a dict is sent as `application/json` and bytes as `application/octet-stream`. Any other body keeps the caller's type, which may be `None` or `""` |
| `ObjectStore.BodyFor` | task/task.py:40-46 | A dict is sent as its JSON serialisation; bytes and any other body are sent unchanged |
| `ObjectStore.UploadFile` | task/task.py:29-48 | Raises exactly when the put status is above 300 and then leaves the store as it was. Otherwise exactly one key is added or replaced, holding the body and the inferred type. Every other key is untouched |
| `ObjectStore.UploadThenGet` | task/task.py:22-48 | An upload with a successful status followed by a successful get of the same key returns exactly the body that was sent |
| `ObjectStore.PutFiles` | task/task.py:61-69 | Files are put in list order, each under its given key. The count of files put is the index of the first file that cannot be read or whose put fails, or the list length if none does. The loop raises exactly when it stops early, with `ReadFailed` or `BadStatus` for that file |
| `ObjectStore.UploadFiles` | task/task.py:51-69 | The same for the whole batch, with the failing put's `BadStatus` naming the key `join(dir, basename(path))` |
| `ObjectStore.FilePuts` | task/task.py:61-69 | The put for file `i` stores its contents as an octet stream under `join(dir, basename(path_i))` |
| `ObjectStore.PutFilesWritesPrefix` | task/task.py:61-69 | The store after the loop is the reference fold of the puts of exactly the files before the first failure, in order |
| `ObjectStore.UploadFilesWritesPrefix` | task/task.py:61-69 | The same for the batch upload, with the puts under the derived keys |
| `ObjectStore.ApplyPutsContents` | task/task.py:61-69 | After a run of puts, each written key holds the object last put under it, and every key no put wrote is untouched |
| `ObjectStore.BatchContents` | task/task.py:61-69 | Keys that no file before the first failure maps to keep their old contents, so later files stay unwritten. Each key written before the failure holds the file last put under it |
| `Paths.LastSeparator` | task/task.py:62 | Finds the position of the last `/` in a path: every character after it is not a `/`, and -1 means there is none |
| `Paths.Basename` | task/task.py:62 | `basename(p)` is a suffix of `p` that holds no `/` |
| `Paths.BasenameFollowsSeparator` | task/task.py:62 | That suffix is the longest one: unless it is all of `p`, a `/` comes right before it |
| `Paths.Join` | task/task.py:63 | `join(dir, name)` always ends in `name`. An absolute `name` replaces `dir`; otherwise the result starts with `dir` |
| `Paths.JoinSeparator` | task/task.py:63 | For a relative `name`, `join` inserts nothing after an empty `dir` or one ending in `/`, and exactly one `/` otherwise |
| `Paths.BasenameAfterSeparator` | task/task.py:62 | A `/`-free name placed after an empty text or a trailing `/` is the basename of the result |
| `Paths.BasenameOfJoin` | task/task.py:62-63 | The basename of `join(dir, name)` is `name` for every `/`-free name and any directory, so the object key keeps the file's name |
| `Paths.ObjectKeyBasename` | task/task.py:62-63 | The key `ObjectKey` derives for a local file has the same basename as the file |
| `Paths.ObjectKeyCollision` | task/task.py:62-63 | Two files uploaded into one directory get the same object key exactly when their basenames are equal |
| `Config.GetObjPrefix` | configs/config.py:18 | The input prefix is the case stem `doctor/{uid}/ct/{cid}/models/` followed by `images`. For a `/`-free user id, the parser reads back exactly `(uid, cid)` from it |
| `Config.PutObjPrefix` | configs/config.py:19 | The output prefix is the same stem followed by `custom`, and it parses back the same way |
| `Config.PrefixBuilders` | configs/config.py:16-20 | The configuration defines exactly the builders `get_obj_prefix` and `put_obj_prefix`, and each key maps to its builder |
| `Config.PrefixesShareStem` | configs/config.py:18-19 | The two prefixes of one case agree on every character of the stem `doctor/{uid}/ct/{cid}/models/` and differ at the first character after it |
| `Config.PrefixesNeverCollide` | configs/config.py:18-19 | No input prefix ever equals an output prefix, for any two cases |
| `Config.ParseCasePrefix` | configs/config.py:18-19 | A key it accepts is exactly the stem of the `/`-free user id and case id it returns, followed by the given leaf |
| `Config.ParseCasePrefixRoundTrip` | configs/config.py:18-19 | Parsing a prefix built from a `/`-free user id gives back the original `(uid, cid)` |
| `Config.GetObjPrefixInjective` | configs/config.py:18 | For `/`-free user ids, equal input prefixes imply equal user and case ids |
| `Config.SlashInUserIdAliases` | configs/config.py:18 | Ids are inserted verbatim, so a user id holding `/ct/` gives two different cases the same prefix |
| `Tasks.StageInput` | task/task.py:80-86 | After a successful fetch, the staging file `/root/ct.nii.gz` holds exactly the stored bytes. After a failed fetch the local files are untouched. No other local file ever changes |
| `Tasks.RunNnunet` | task/task.py:73-100 | Fetches `prefix + '/models/ct/nii/ct.nii.gz'` and never writes the store. The run succeeds exactly when the return code is 0, returning `prefix + '/models/ct/stl/'`. A non-zero code raises with the stderr |
| `Tasks.NnunetOutcomeIgnoresFetch` | task/task.py:80-96 | A failed fetch is swallowed: the segmentation outcome is the same for every store and fetch status |
| `Tasks.RunPlane` | task/task.py:104-139 | Fetches the same input key. With the volume staged and the analysis passing, it returns `prefix + '/information.json'`. A missing staged volume or a raising analysis fails the run. The store changes only by the JSON report, and only when the put succeeds |
| `Tasks.PlaneOutcomeIgnoresUpload` | task/task.py:134-139 | A failed report upload is swallowed: the outcome is the same whatever status the put got |
| `Tasks.PlaneRunsOnStaleInput` | task/task.py:111-121 | After a failed fetch the task goes on with a staging file left by an earlier run and succeeds with the report path |
| `Tasks.PlaneReportReadsBack` | task/task.py:111-135 | When the volume is staged, either by this run's successful fetch or by an earlier run, and the analysis passes, a report uploaded with a successful status reads back as the serialised `{'RNC': ''}` |
| `Tasks.FirstMissing` | task/task.py:75-76 | Reading configuration keys in order stops at the first missing one. The result is `None` exactly when every key is present; otherwise it is a missing key all of whose predecessors are present |
| `Tasks.RunNnunetConfigured` | task/task.py:75-78 | `s3_client`, then `bucket_name`, then the builder name are looked up. The first one missing raises `KeyError` with that key before any fetch, with store and local files unchanged. When all are present the task fetches under that builder's prefix |
| `Tasks.RunPlaneConfigured` | task/task.py:105-109 | The same, with `agent_lst` read after `bucket_name` and before the builder |
| `Tasks.RunNnunetAsWritten` | task/task.py:73-100 | As written, every run raises a `KeyError` before fetching, leaving store and local files unchanged. When the client and bucket are configured, the key is `'obs_prefix'` |
| `Tasks.RunPlaneAsWritten` | task/task.py:104-139 | As written, every run raises a `KeyError` before fetching. With client and bucket configured it is `'agent_lst'` when the agents are not configured and `'obs_prefix'` when they are |
| `Tasks.ServiceConfRaisesKeyError` | main.py:77-78 | Under the configuration the service sets up, which holds only the client and the bucket, segmentation raises `KeyError('obs_prefix')` and the landmark task raises `KeyError('agent_lst')` |
| `Tasks.DefinedBuilderReachesFetch` | configs/config.py:16-20 | With the client and bucket configured, as the service does, and either builder the configuration defines, `run_nnunet` runs as its builder-parameterised form. `run_plane` does so once `agent_lst` is configured too |
| `Gateway.Predict` | main.py:13-23 | The reply is 202 exactly when the body is JSON with both `uid` and `cid` and the broker accepts. The queue then gains exactly one `run_nnunet` job with args `[uid, cid]` in that order, and the reply carries its id. Every other case returns 500 with the cause and leaves the queue unchanged: no JSON body, the first missing field (`uid` is looked up first), or the broker's error |
| `Gateway.Lookup` | main.py:28 | A task id the backend has no record of reads as `PENDING` with no value; a known id reads as its record |
| `Gateway.Project` | main.py:29-43 | `PENDING` maps to status `Pending...` and `FAILURE` to status `str(info)`, both with no result. Every other state maps to its result with no status. The state is copied, and exactly one of status and result is present |
| `Gateway.ResultOf` | main.py:26-44 | The response carries the task's state and exactly one of status or result. An unknown id is reported as pending |
| `Gateway.AcceptedTaskIsPending` | main.py:19-33 | Right after an accepted submission, polling the new id reports `PENDING` with status `Pending...` |
| `Gateway.FailedComputeReportsStderr` | task/task.py:95-96 | A segmentation run whose command exits non-zero is reported as `FAILURE`, with the command's stderr verbatim as status and no result |
| `Gateway.SucceededComputeReportsOutputDir` | task/task.py:98-100 | A segmentation run whose command exits zero is reported as `SUCCESS` with result `prefix + '/models/ct/stl/'` |
| `Gateway.AsWrittenJobReportsKeyError` | task/task.py:77 | As written, under the service's configuration, every recorded segmentation job is reported as `FAILURE` with status `'obs_prefix'` |

## Left out

- Celery and Redis wiring, the broker and result-backend URLs and the `ContextTask` wrapper (`app/app.py`) are left out; this is library plumbing. State transitions such as `PENDING` to `STARTED` to `SUCCESS` belong to Celery. `Gateway.Record` only fixes how a finished run is stored.
- `boto3` client construction, argument parsing, the SIGINT handler and the worker thread in `main.py:56-86` are left out: process setup, I/O and concurrency.
- Flask routing and JSON marshalling are left out. Requests and responses are plain datatypes, and a JSON body is a map from field name to string, so non-string ids are not modelled.
- The exact text of the exceptions `predict()` turns into `{'error': str(e)}` is left out. Replies carry the cause as a `PredictError` value.
- `subprocess.run` is not modelled; it is an abstract `ComputeResult(returnCode, stderr)`.
- SimpleITK image reading and the AGENT landmark and plane functions are foreign code, modelled as one supplied `Outcome`. The only deterministic part kept is that reading a staging file that is not there raises (`ImageUnreadable`). `Tasks.ErrorText` gives that error's text as the path, not SimpleITK's own wording.
- `json.dumps(...).encode('utf-8')` is left out as the `dumps` parameter. Only the choice of content type and the payload passed through are verified. Dicts have string values, which covers the only dict the tasks upload. The batch upload sends only bytes, so it passes the fixed `ObjectStore.UnusedDumps`, which is never applied.
- The bucket name and the Redis host come from the environment. They and the unused `redisConfig` fields are not modelled, and the store is a single bucket.
- Logging is left out; it has no effect on outcomes.
- The worker configuration is modelled only by the keys it holds. `Tasks.ServiceConf` lists the two keys `main.py` sets; Flask's own default keys are left out, since none of them is a key the tasks read.
- The purity of the two prefix builders has no lemma of its own. Every Dafny function is deterministic, so equal `(uid, cid)` give equal keys by construction.
- A failure to write the local staging file is not modelled; the write always succeeds.
- `ObjectStore.UploadFile`: what the backend holds after a put answered above 300 is unknown. The model leaves the store unchanged.
- Transport errors other than a missing object surface as the supplied status; the client never raises them separately.

## Findings

| source | as written | input that shows it | evidently intended | confidence | as-written member | corrected member |
|---|---|---|---|---|---|---|
| task/task.py:77 | `run_nnunet` and `run_plane` (line 108) read `obsConfig['obs_prefix']`. `configs/config.py:16-20` defines only `bucket`, `get_obj_prefix` and `put_obj_prefix`, so once the configuration lookups pass, both tasks raise `KeyError` before fetching | any `(uid, cid)`, e.g. `('u1', 'c1')`, with the service's configuration: segmentation fails and the job reports `FAILURE` with status `'obs_prefix'` | the tasks take their prefix from a builder the configuration defines, fetch `prefix + '/models/ct/nii/ct.nii.gz'` and report their output path | high (not executed) | `Tasks.RunNnunetAsWritten`, `Tasks.RunPlaneAsWritten`, shown by `Tasks.ServiceConfRaisesKeyError` and `Gateway.AsWrittenJobReportsKeyError` | `Tasks.RunNnunet`, `Tasks.RunPlane` (builder as a parameter), with `Tasks.DefinedBuilderReachesFetch` |
| task/task.py:107 | `run_plane` reads `self.app.conf['agent_lst']`. `main.py:77-78` puts only `s3_client` and `bucket_name` into the configuration the worker receives, so the landmark task raises `KeyError('agent_lst')` before its prefix lookup | any `(uid, cid)` with the service's configuration | the landmark agents are loaded into the worker configuration before the task runs | medium (not executed) | `Tasks.RunPlaneAsWritten`, shown by `Tasks.ServiceConfRaisesKeyError` | `Tasks.RunPlaneConfigured` with `agent_lst` present, with `Tasks.DefinedBuilderReachesFetch` |
