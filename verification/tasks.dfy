/** The two worker task bodies. Every external effect is an outcome supplied by
    the caller: the status answering each store call, the return code and
    stderr of the compute command, and whether the landmark analysis raised. */
module Tasks {
  import opened Wrappers
  import opened ObjectStore
  import Config

  /** Key suffix of the input volume under a case prefix. */
  const NiiPath := "/models/ct/nii/ct.nii.gz"
  /** Local staging file the input volume is written to. */
  const NiiLocalPath := "/root/ct.nii.gz"
  /** Suffix of the segmentation output directory the task reports. */
  const DrcPrefix := "/models/ct/stl/"
  /** Suffix of the plane report the landmark task uploads. */
  const InformationPath := "/information.json"
  /** The configuration key both tasks read their prefix builder from. */
  const ObsPrefixName := "obs_prefix"

  /** Worker configuration keys the tasks read, in the order they read them. */
  const S3ClientKey := "s3_client"
  const BucketNameKey := "bucket_name"
  const AgentListKey := "agent_lst"
  const NnunetConfKeys := [S3ClientKey, BucketNameKey]
  const PlaneConfKeys := [S3ClientKey, BucketNameKey, AgentListKey]

  /** The keys the service puts into the worker configuration: the web app's
      configuration, holding the store client and the bucket name, is copied
      into the worker's. Nothing sets the landmark agents. */
  const ServiceConf: set<string> := {S3ClientKey, BucketNameKey}

  /** What the compute command reported when it finished. */
  datatype ComputeResult = ComputeResult(returnCode: int, stderr: string)

  /** The exceptions that end a task. */
  datatype TaskError =
    | KeyError(key: string)            // the configuration has no such entry
    | ComputeFailed(stderr: string)    // the compute command exited non-zero
    | ImageUnreadable(path: string)    // the staged volume is not there to read
    | AnalysisFailed(message: string)  // the landmark or plane code raised

  /** Everything a task run leaves behind: the key it fetched (if it got that
      far), the local file system, the store, and its return value or error. */
  datatype TaskRun = TaskRun(fetched: Option<Key>, local: LocalFs, store: Store,
                             outcome: Result<string, TaskError>)

  /** `str()` of a task's exception, the text a failed task reports. */
  function ErrorText(e: TaskError): string
  {
    match e
    case KeyError(key) => "'" + key + "'"
    case ComputeFailed(stderr) => stderr
    case ImageUnreadable(path) => path
    case AnalysisFailed(message) => message
  }

  /** The fetch stage shared by both tasks: read the input volume and, when that
      succeeds, write it to the staging file. A failure is logged and swallowed. */
  function StageInput(store: Store, key: Key, status: int, local: LocalFs): (l: LocalFs)
    ensures key in store && status <= 300 ==> NiiLocalPath in l && l[NiiLocalPath] == store[key].body
    ensures !(key in store && status <= 300) ==> l == local
    ensures l.Keys == local.Keys || l.Keys == local.Keys + {NiiLocalPath}
    ensures forall p :: p in local && p != NiiLocalPath ==> p in l && l[p] == local[p]
  {
    match GetFile(store, key, status)
    case Success(body) => local[NiiLocalPath := body]
    case Failure(_) => local
  }

  /** `run_nnunet` with its prefix builder given: fetch and stage the input
      volume, run the compute command, and report the output directory. */
  function RunNnunet(prefix: Config.PrefixBuilder, uid: string, cid: string, store: Store,
                     fetchStatus: int, local: LocalFs, compute: ComputeResult): (r: TaskRun)
    ensures r.fetched == Some(prefix(uid, cid) + NiiPath)
    ensures r.store == store
    ensures r.local == StageInput(store, prefix(uid, cid) + NiiPath, fetchStatus, local)
    ensures r.outcome.Success? <==> compute.returnCode == 0
    ensures r.outcome.Success? ==> r.outcome.value == prefix(uid, cid) + DrcPrefix
    ensures r.outcome.Failure? ==> r.outcome.error == ComputeFailed(compute.stderr)
  {
    var obsPrefix := prefix(uid, cid);
    var niiPath := obsPrefix + NiiPath;
    var staged := StageInput(store, niiPath, fetchStatus, local);
    if compute.returnCode != 0 then TaskRun(Some(niiPath), staged, store, Failure(ComputeFailed(compute.stderr)))
    else TaskRun(Some(niiPath), staged, store, Success(obsPrefix + DrcPrefix))
  }

  /** The report the landmark task uploads. */
  function Information(): JsonDict
  {
    map["RNC" := ""]
  }

  /** `run_plane` with its prefix builder given: fetch and stage the input
      volume, read it and run the landmark analysis (whose results are not
      used), upload the fixed report, and return the report's key. A failed
      upload is logged and swallowed. */
  function RunPlane(prefix: Config.PrefixBuilder, uid: string, cid: string, store: Store,
                    fetchStatus: int, local: LocalFs, analysis: Outcome<string>,
                    putStatus: int, dumps: JsonDict -> Bytes): (r: TaskRun)
    ensures r.fetched == Some(prefix(uid, cid) + NiiPath)
    ensures r.local == StageInput(store, prefix(uid, cid) + NiiPath, fetchStatus, local)
    ensures r.outcome.Success? <==> NiiLocalPath in r.local && analysis.Pass?
    ensures NiiLocalPath !in r.local ==> r.outcome == Failure(ImageUnreadable(NiiLocalPath))
    ensures NiiLocalPath in r.local && analysis.Fail? ==> r.outcome == Failure(AnalysisFailed(analysis.error))
    ensures r.outcome.Success? ==> r.outcome.value == prefix(uid, cid) + InformationPath
    ensures r.store != store ==> r.outcome.Success? && putStatus <= 300
    ensures r.outcome.Success? && putStatus <= 300 ==>
              r.store == store[prefix(uid, cid) + InformationPath :=
                                 Object(dumps(Information()), Some(JsonContentType))]
  {
    var obsPrefix := prefix(uid, cid);
    var niiPath := obsPrefix + NiiPath;
    var staged := StageInput(store, niiPath, fetchStatus, local);
    if NiiLocalPath !in staged then
      TaskRun(Some(niiPath), staged, store, Failure(ImageUnreadable(NiiLocalPath)))
    else if analysis.Fail? then
      TaskRun(Some(niiPath), staged, store, Failure(AnalysisFailed(analysis.error)))
    else
      var informationPath := obsPrefix + InformationPath;
      var put := UploadFile(store, informationPath, DictPayload(Information()), None, putStatus, dumps);
      TaskRun(Some(niiPath), staged, put.store, Success(informationPath))
  }

  /** Reading `names` in order from a configuration holding the keys `conf`:
      the first one missing, on which the lookup raises, or `None` when all
      are there. */
  function FirstMissing(conf: set<string>, names: seq<string>): (m: Option<string>)
    ensures m.None? <==> forall i :: 0 <= i < |names| ==> names[i] in conf
    ensures m.Some? ==> m.value !in conf
    ensures m.Some? ==> exists i :: 0 <= i < |names| && names[i] == m.value
                                    && forall j :: 0 <= j < i ==> names[j] in conf
    decreases |names|
  {
    if |names| == 0 then None
    else if names[0] !in conf then Some(names[0])
    else
      var m := FirstMissing(conf, names[1..]);
      assert forall i :: 1 <= i < |names| ==> names[1..][i - 1] == names[i];
      m
  }

  /** `run_nnunet`'s lookups: the client and bucket from the worker
      configuration `conf`, then the prefix builder named `name` from the
      builders, each raising `KeyError` before any effect when missing. */
  function RunNnunetConfigured(conf: set<string>, builders: map<string, Config.PrefixBuilder>, name: string,
                               uid: string, cid: string, store: Store, fetchStatus: int,
                               local: LocalFs, compute: ComputeResult): (r: TaskRun)
    ensures S3ClientKey !in conf ==> r == TaskRun(None, local, store, Failure(KeyError(S3ClientKey)))
    ensures S3ClientKey in conf && BucketNameKey !in conf
            ==> r == TaskRun(None, local, store, Failure(KeyError(BucketNameKey)))
    ensures S3ClientKey in conf && BucketNameKey in conf && name !in builders
            ==> r == TaskRun(None, local, store, Failure(KeyError(name)))
    ensures S3ClientKey in conf && BucketNameKey in conf && name in builders
            ==> r.fetched == Some(builders[name](uid, cid) + NiiPath)
  {
    match FirstMissing(conf, NnunetConfKeys)
    case Some(key) => TaskRun(None, local, store, Failure(KeyError(key)))
    case None =>
      assert NnunetConfKeys[0] in conf && NnunetConfKeys[1] in conf;
      if name !in builders then TaskRun(None, local, store, Failure(KeyError(name)))
      else RunNnunet(builders[name], uid, cid, store, fetchStatus, local, compute)
  }

  /** `run_plane`'s lookups: the client, bucket and landmark agents from the
      worker configuration, then the prefix builder, as `RunNnunetConfigured`. */
  function RunPlaneConfigured(conf: set<string>, builders: map<string, Config.PrefixBuilder>, name: string,
                              uid: string, cid: string, store: Store, fetchStatus: int,
                              local: LocalFs, analysis: Outcome<string>, putStatus: int,
                              dumps: JsonDict -> Bytes): (r: TaskRun)
    ensures S3ClientKey !in conf ==> r == TaskRun(None, local, store, Failure(KeyError(S3ClientKey)))
    ensures S3ClientKey in conf && BucketNameKey !in conf
            ==> r == TaskRun(None, local, store, Failure(KeyError(BucketNameKey)))
    ensures S3ClientKey in conf && BucketNameKey in conf && AgentListKey !in conf
            ==> r == TaskRun(None, local, store, Failure(KeyError(AgentListKey)))
    ensures S3ClientKey in conf && BucketNameKey in conf && AgentListKey in conf && name !in builders
            ==> r == TaskRun(None, local, store, Failure(KeyError(name)))
    ensures S3ClientKey in conf && BucketNameKey in conf && AgentListKey in conf && name in builders
            ==> r.fetched == Some(builders[name](uid, cid) + NiiPath)
  {
    match FirstMissing(conf, PlaneConfKeys)
    case Some(key) =>
      assert PlaneConfKeys[1] == BucketNameKey && PlaneConfKeys[2] == AgentListKey;
      TaskRun(None, local, store, Failure(KeyError(key)))
    case None =>
      assert PlaneConfKeys[0] in conf && PlaneConfKeys[1] in conf && PlaneConfKeys[2] in conf;
      if name !in builders then TaskRun(None, local, store, Failure(KeyError(name)))
      else RunPlane(builders[name], uid, cid, store, fetchStatus, local, analysis, putStatus, dumps)
  }

  /** `run_nnunet` as written: after the configuration lookups it reads the
      builder under `obs_prefix`, which the configuration does not define, so
      every run raises `KeyError` before fetching anything. */
  function RunNnunetAsWritten(conf: set<string>, uid: string, cid: string, store: Store, fetchStatus: int,
                              local: LocalFs, compute: ComputeResult): (r: TaskRun)
    ensures r.fetched.None? && r.local == local && r.store == store
    ensures r.outcome.Failure? && r.outcome.error.KeyError?
    ensures S3ClientKey in conf && BucketNameKey in conf ==> r.outcome.error == KeyError(ObsPrefixName)
  {
    RunNnunetConfigured(conf, Config.PrefixBuilders(), ObsPrefixName, uid, cid, store, fetchStatus, local, compute)
  }

  /** `run_plane` as written: the same failure, with the landmark agents read
      from the worker configuration before the builder. */
  function RunPlaneAsWritten(conf: set<string>, uid: string, cid: string, store: Store, fetchStatus: int,
                             local: LocalFs, analysis: Outcome<string>, putStatus: int,
                             dumps: JsonDict -> Bytes): (r: TaskRun)
    ensures r.fetched.None? && r.local == local && r.store == store
    ensures r.outcome.Failure? && r.outcome.error.KeyError?
    ensures S3ClientKey in conf && BucketNameKey in conf && AgentListKey !in conf
            ==> r.outcome.error == KeyError(AgentListKey)
    ensures S3ClientKey in conf && BucketNameKey in conf && AgentListKey in conf
            ==> r.outcome.error == KeyError(ObsPrefixName)
  {
    RunPlaneConfigured(conf, Config.PrefixBuilders(), ObsPrefixName, uid, cid, store, fetchStatus,
                       local, analysis, putStatus, dumps)
  }

  /** Under the configuration the service sets up, segmentation fails with
      `KeyError('obs_prefix')` and the landmark task, reading its agents first,
      with `KeyError('agent_lst')`. */
  lemma ServiceConfRaisesKeyError(uid: string, cid: string, store: Store, fetchStatus: int,
                                  local: LocalFs, compute: ComputeResult, analysis: Outcome<string>,
                                  putStatus: int, dumps: JsonDict -> Bytes)
    ensures RunNnunetAsWritten(ServiceConf, uid, cid, store, fetchStatus, local, compute)
         == TaskRun(None, local, store, Failure(KeyError(ObsPrefixName)))
    ensures RunPlaneAsWritten(ServiceConf, uid, cid, store, fetchStatus, local, analysis, putStatus, dumps)
         == TaskRun(None, local, store, Failure(KeyError(AgentListKey)))
  {
  }

  /** With the client and bucket configured (as the service does) and a builder
      the configuration does define, segmentation's lookups succeed and it
      behaves as its builder-parameterised form; the landmark task does so
      once the agents are configured too. */
  lemma DefinedBuilderReachesFetch(conf: set<string>, name: string, uid: string, cid: string, store: Store,
                                   fetchStatus: int, local: LocalFs, compute: ComputeResult,
                                   analysis: Outcome<string>, putStatus: int, dumps: JsonDict -> Bytes)
    requires S3ClientKey in conf && BucketNameKey in conf
    requires name == Config.GetObjPrefixName || name == Config.PutObjPrefixName
    ensures name in Config.PrefixBuilders()
    ensures RunNnunetConfigured(conf, Config.PrefixBuilders(), name, uid, cid, store, fetchStatus, local, compute)
         == RunNnunet(Config.PrefixBuilders()[name], uid, cid, store, fetchStatus, local, compute)
    ensures AgentListKey in conf ==>
              (RunPlaneConfigured(conf, Config.PrefixBuilders(), name, uid, cid, store, fetchStatus, local,
                                  analysis, putStatus, dumps)
               == RunPlane(Config.PrefixBuilders()[name], uid, cid, store, fetchStatus, local, analysis, putStatus, dumps))
  {
  }

  /** A failed fetch is swallowed: the segmentation outcome is the same whatever
      the store holds and whatever status the fetch got. */
  lemma NnunetOutcomeIgnoresFetch(prefix: Config.PrefixBuilder, uid: string, cid: string,
                                  store1: Store, status1: int, store2: Store, status2: int,
                                  local: LocalFs, compute: ComputeResult)
    ensures RunNnunet(prefix, uid, cid, store1, status1, local, compute).outcome
         == RunNnunet(prefix, uid, cid, store2, status2, local, compute).outcome
  {
  }

  /** A failed upload is swallowed: the landmark task's outcome does not depend
      on the status the report's put got. */
  lemma PlaneOutcomeIgnoresUpload(prefix: Config.PrefixBuilder, uid: string, cid: string, store: Store,
                                  fetchStatus: int, local: LocalFs, analysis: Outcome<string>,
                                  putStatus1: int, putStatus2: int, dumps: JsonDict -> Bytes)
    ensures RunPlane(prefix, uid, cid, store, fetchStatus, local, analysis, putStatus1, dumps).outcome
         == RunPlane(prefix, uid, cid, store, fetchStatus, local, analysis, putStatus2, dumps).outcome
  {
  }

  /** A failed fetch does not stop the landmark task when an earlier run left a
      staging file: the analysis runs on that stale volume. */
  lemma PlaneRunsOnStaleInput(prefix: Config.PrefixBuilder, uid: string, cid: string, store: Store,
                              fetchStatus: int, local: LocalFs, putStatus: int, dumps: JsonDict -> Bytes)
    requires NiiLocalPath in local
    requires prefix(uid, cid) + NiiPath !in store || fetchStatus > 300
    ensures var r := RunPlane(prefix, uid, cid, store, fetchStatus, local, Pass, putStatus, dumps);
            r.local == local && r.outcome == Success(prefix(uid, cid) + InformationPath)
  {
  }

  /** The report the landmark task stores reads back as the serialised fixed
      report when its put and a later get both succeed, whether the volume
      was fetched in this run or left staged by an earlier one. */
  lemma PlaneReportReadsBack(prefix: Config.PrefixBuilder, uid: string, cid: string, store: Store,
                             fetchStatus: int, local: LocalFs, putStatus: int, getStatus: int,
                             dumps: JsonDict -> Bytes)
    requires putStatus <= 300 && getStatus <= 300
    requires NiiLocalPath in local || (prefix(uid, cid) + NiiPath in store && fetchStatus <= 300)
    ensures var r := RunPlane(prefix, uid, cid, store, fetchStatus, local, Pass, putStatus, dumps);
            r.outcome.Success?
            && GetFile(r.store, r.outcome.value, getStatus) == Success(dumps(Information()))
  {
  }
}
