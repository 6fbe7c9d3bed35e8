/**
 * The job descriptor (SparkSubmitArgs.java): a mutable record that the
 * parser fills through its setters and that submission later adjusts in
 * place. `Snapshot` is the record's value at one moment.
 */
module SubmitArgs {
  import opened Wrappers

  datatype Snapshot = Snapshot(
    name: Option<string>,
    className: Option<string>,
    resource: Option<string>,
    batchType: Option<string>,
    proxyUser: Option<string>,
    queue: Option<string>,
    statusBatchId: Option<string>,
    killBatchId: Option<string>,
    args: seq<string>,
    conf: map<string, string>,
    pyFiles: seq<string>,
    files: seq<string>,
    jars: seq<string>,
    archives: seq<string>,
    packages: seq<string>,
    repositories: seq<string>,
    driverCores: Option<string>,
    deployMode: Option<string>)

  /** The field initialisers: batch type "SPARK", empty collections, every other field null. */
  const Defaults: Snapshot :=
    Snapshot(None, None, None, Some("SPARK"), None, None, None, None,
             [], map[], [], [], [], [], [], [], None, None)

  /**
   * The record. Its list-valued fields hold values: a list handed to a
   * setter is not shared with the caller afterwards.
   */
  class SparkSubmitArgs {
    var name: Option<string>
    var className: Option<string>
    var resource: Option<string>
    var batchType: Option<string>
    var proxyUser: Option<string>
    var queue: Option<string>
    var statusBatchId: Option<string>
    var killBatchId: Option<string>
    var args: seq<string>
    var conf: map<string, string>
    var pyFiles: seq<string>
    var files: seq<string>
    var jars: seq<string>
    var archives: seq<string>
    var packages: seq<string>
    var repositories: seq<string>
    var driverCores: Option<string>
    var deployMode: Option<string>

    function Value(): Snapshot
      reads this
    {
      Snapshot(name, className, resource, batchType, proxyUser, queue, statusBatchId, killBatchId,
               args, conf, pyFiles, files, jars, archives, packages, repositories, driverCores, deployMode)
    }

    constructor ()
      ensures Value() == Defaults
      ensures batchType == Some("SPARK")
      ensures args == [] && conf == map[] && pyFiles == [] && files == []
      ensures jars == [] && archives == [] && packages == [] && repositories == []
      ensures name.None? && className.None? && resource.None? && proxyUser.None? && queue.None?
      ensures statusBatchId.None? && killBatchId.None? && driverCores.None? && deployMode.None?
    {
      name, className, resource, batchType := None, None, None, Some("SPARK");
      proxyUser, queue, statusBatchId, killBatchId := None, None, None, None;
      args, conf, pyFiles, files := [], map[], [], [];
      jars, archives, packages, repositories := [], [], [], [];
      driverCores, deployMode := None, None;
    }

    method SetName(v: Option<string>)
      modifies this
      ensures Value() == old(Value()).(name := v)
    {
      name := v;
    }

    method SetClassName(v: Option<string>)
      modifies this
      ensures Value() == old(Value()).(className := v)
    {
      className := v;
    }

    method SetResource(v: Option<string>)
      modifies this
      ensures Value() == old(Value()).(resource := v)
    {
      resource := v;
    }

    method SetBatchType(v: Option<string>)
      modifies this
      ensures Value() == old(Value()).(batchType := v)
    {
      batchType := v;
    }

    method SetProxyUser(v: Option<string>)
      modifies this
      ensures Value() == old(Value()).(proxyUser := v)
    {
      proxyUser := v;
    }

    method SetQueue(v: Option<string>)
      modifies this
      ensures Value() == old(Value()).(queue := v)
    {
      queue := v;
    }

    method SetStatusBatchId(v: Option<string>)
      modifies this
      ensures Value() == old(Value()).(statusBatchId := v)
    {
      statusBatchId := v;
    }

    method SetKillBatchId(v: Option<string>)
      modifies this
      ensures Value() == old(Value()).(killBatchId := v)
    {
      killBatchId := v;
    }

    method SetArgs(v: seq<string>)
      modifies this
      ensures Value() == old(Value()).(args := v)
    {
      args := v;
    }

    method SetConf(v: map<string, string>)
      modifies this
      ensures Value() == old(Value()).(conf := v)
    {
      conf := v;
    }

    /**
     * `getConf().put(key, value)`: the getter hands out the stored map, so
     * the entry is visible to every later reader of the record.
     */
    method PutConf(key: string, value: string)
      modifies this
      ensures Value() == old(Value()).(conf := old(conf)[key := value])
    {
      conf := conf[key := value];
    }

    method SetPyFiles(v: seq<string>)
      modifies this
      ensures Value() == old(Value()).(pyFiles := v)
    {
      pyFiles := v;
    }

    method SetFiles(v: seq<string>)
      modifies this
      ensures Value() == old(Value()).(files := v)
    {
      files := v;
    }

    method SetJars(v: seq<string>)
      modifies this
      ensures Value() == old(Value()).(jars := v)
    {
      jars := v;
    }

    method SetArchives(v: seq<string>)
      modifies this
      ensures Value() == old(Value()).(archives := v)
    {
      archives := v;
    }

    method SetPackages(v: seq<string>)
      modifies this
      ensures Value() == old(Value()).(packages := v)
    {
      packages := v;
    }

    method SetRepositories(v: seq<string>)
      modifies this
      ensures Value() == old(Value()).(repositories := v)
    {
      repositories := v;
    }

    method SetDriverCores(v: Option<string>)
      modifies this
      ensures Value() == old(Value()).(driverCores := v)
    {
      driverCores := v;
    }

    method SetDeployMode(v: Option<string>)
      modifies this
      ensures Value() == old(Value()).(deployMode := v)
    {
      deployMode := v;
    }
  }
}
