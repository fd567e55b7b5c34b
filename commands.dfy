/** The orchestration driver behind `s <project> <method>` and
    `s <method>`: it assembles a project's configuration, runs one targeted
    project or the whole dependency-ordered cascade, keeps the outputs worth
    reporting and decides how the run ends. Template discovery, variable
    resolution, dependency ordering and component execution are
    collaborators whose results the driver receives. */
module Commands {
  import opened Wrappers
  import opened Js

  /** What `getRealVariables` resolves the template to, as far as the driver
      uses it: the application name, and the configuration
      `getServiceConfig` derives from it for each project. */
  datatype Variables = Variables(name: Value, serviceConfig: string -> map<string, Value>)

  /** The results of the collaborators that `init` calls.
      - template: the path `checkTemplateFile` returned, or nothing;
      - variables: the resolved variables, or the message of the exception
        parsing or resolving threw;
      - component: the value a component's method returns when run on a
        configuration, or the message of the exception it threw;
      - order: the execution order `Analysis.getProjectOrder` computes, or
        the message of the exception it threw (a cycle, say);
      - cascade: the per-project results of running a method over an order
        with the given parameters;
      - errorsRecorded: whether some project recorded a failure in the
        `s-execute-file` environment variable. */
  datatype Collaborators = Collaborators(
    template: Option<string>,
    variables: Result<Variables, string>,
    component: (map<string, Value>, string) -> Result<Value, string>,
    order: Result<seq<string>, string>,
    cascade: (seq<string>, string, Value) -> map<string, Value>,
    errorsRecorded: bool)

  /** `checkTemplateFile` found a template: its result is a truthy (non-empty)
      path. A missing or empty path both take the template-missing exit. */
  predicate TemplateFound(env: Collaborators) {
    env.template.Some? && env.template.value != ""
  }

  /** An exception that reaches the outer handler of `init`: the wrapped
      failure of a targeted project, or anything else that was thrown. */
  datatype Thrown = ProjectFailed(project: string, detail: string) | Raised(message: string)

  /** Why a run exits with status -1. */
  datatype ExitReason =
    | TemplateMissing(directory: string)
    | Failed(error: Thrown)
    | ProjectsFailed

  /** What a successful run reports: that the method ended with nothing to
      show, or the output to be dumped as YAML. */
  datatype Report = EndOfMethod(message: string) | Dumped(output: map<string, Value>)

  datatype Outcome = ErrorExit(reason: ExitReason) | Completed(report: Report)

  /** The process exit status of an outcome. */
  function ExitCode(o: Outcome): (r: int) {
    if o.ErrorExit? then -1 else 0
  }

  /** The text a component call fails with when the component has no such
      method. */
  const NotAFunction: string := "componentInstance[method] is not a function"

  function MissingMethodMessage(project: string, methodName: string): (r: string) {
    "Project " + project + " does not include [" + methodName + "] method"
  }

  /** The message of a failed targeted call: a missing method is reported
      by project and method name, any other failure keeps its message. */
  function RewriteMessage(message: string, project: string, methodName: string): (r: string)
    ensures Includes(message, NotAFunction) ==>
      r == MissingMethodMessage(project, methodName) && Includes(r, project) && Includes(r, methodName)
    ensures !Includes(message, NotAFunction) ==> r == message
  {
    if Includes(message, NotAFunction) then
      var tail := " does not include [" + methodName + "] method";
      assert MissingMethodMessage(project, methodName) == "Project " + project + tail;
      IncludesPart("Project ", project, tail);
      IncludesPart("Project " + project + " does not include [", methodName, "] method");
      MissingMethodMessage(project, methodName)
    else
      message
  }

  /** The parameters handed to the cascade: the deploy parameters, or the
      empty string in place of a falsy value. */
  function CascadeParams(deployParams: Value): (r: Value)
    ensures Truthy(deployParams) ==> r == deployParams
    ensures !Truthy(deployParams) ==> r == Str("")
    ensures Truthy(r) == Truthy(deployParams)
  {
    if Truthy(deployParams) then deployParams else Str("")
  }

  /** The configuration `assemblyProjectConfig` returns: the service
      configuration stamped with the application and project names, and, when
      there are deploy parameters, carrying them under both the current key
      `params` and the legacy key `Params`; every other key is untouched. */
  function Assembled(base: map<string, Value>, appName: Value, projectName: string, deployParams: Value)
    : (r: map<string, Value>)
    ensures "appName" in r && r["appName"] == appName
    ensures "ProjectName" in r && r["ProjectName"] == Str(projectName)
    ensures Truthy(deployParams) ==>
      "params" in r && "Params" in r && r["params"] == deployParams && r["Params"] == deployParams
    ensures forall k ::
              (k != "appName" && k != "ProjectName" && (Truthy(deployParams) ==> k != "params" && k != "Params")) ==>
              (k in r <==> k in base) && (k in r ==> r[k] == base[k])
  {
    var stamped := base["appName" := appName]["ProjectName" := Str(projectName)];
    if Truthy(deployParams) then stamped["params" := deployParams]["Params" := deployParams]
    else stamped
  }

  /** The output of a targeted run: the result under the project's name when
      it is truthy, nothing otherwise. */
  function TargetedOutput(project: string, result: Value): (out: map<string, Value>) {
    if Truthy(result) then map[project := result] else map[]
  }

  /** The output of a cascade: the truthy results of the projects in the
      execution order, values unchanged; results of any other key are
      dropped. */
  function CascadeOutput(order: seq<string>, results: map<string, Value>): (out: map<string, Value>)
    ensures forall k :: k in out <==> k in results && k in order && Truthy(results[k])
    ensures forall k :: k in out ==> out[k] == results[k]
  {
    map k | k in results && k in order && Truthy(results[k]) :: results[k]
  }

  /** The `for ... in` loop over the cascade's results that fills the output
      in place. */
  method CollectCascadeOutput(order: seq<string>, results: map<string, Value>)
    returns (outPutData: map<string, Value>)
    ensures outPutData == CascadeOutput(order, results)
  {
    outPutData := map[];
    var pending := results.Keys;
    while pending != {}
      invariant pending <= results.Keys
      invariant forall k :: k in outPutData <==> k in results && k !in pending && k in order && Truthy(results[k])
      invariant forall k :: k in outPutData ==> outPutData[k] == results[k]
      decreases pending
    {
      var item :| item in pending;
      if item in order && Truthy(results[item]) {
        outPutData := outPutData[item := results[item]];
      }
      pending := pending - {item};
    }
  }

  function EndOfMethodMessage(methodName: string): (r: string) {
    "End of method: " + methodName
  }

  /** How a run whose projects were all attempted ends: a recorded failure
      exits with -1 whatever the output, otherwise an empty output reports
      the end of the method and any other output is dumped. */
  function FinalOutcome(methodName: string, output: map<string, Value>, errorsRecorded: bool): (o: Outcome)
    ensures errorsRecorded <==> o == ErrorExit(ProjectsFailed)
    ensures !errorsRecorded && |output| == 0 ==> o == Completed(EndOfMethod(EndOfMethodMessage(methodName)))
    ensures !errorsRecorded && |output| != 0 ==> o == Completed(Dumped(output))
  {
    if errorsRecorded then ErrorExit(ProjectsFailed)
    else if |output| == 0 then Completed(EndOfMethod(EndOfMethodMessage(methodName)))
    else Completed(Dumped(output))
  }

  /** A project configuration object, whose keys the driver sets in place. */
  class ProjectConfig {
    var fields: map<string, Value>

    constructor(fields: map<string, Value>)
      ensures this.fields == fields
    {
      this.fields := fields;
    }

    method Set(key: string, value: Value)
      modifies this
      ensures fields == old(fields)[key := value]
    {
      fields := fields[key := value];
    }
  }

  class CommandManager {
    const templateFile: string
    const methodName: string
    const customerCommandName: Option<string>
    const deployParams: Value

    constructor(templateFile: string, methodName: string, customerCommandName: Option<string>, params: Value)
      ensures this.templateFile == templateFile && this.methodName == methodName
      ensures this.customerCommandName == customerCommandName && this.deployParams == params
    {
      this.templateFile := templateFile;
      this.methodName := methodName;
      this.customerCommandName := customerCommandName;
      this.deployParams := params;
    }

    /** Targeted mode: a (non-empty) project name was given. */
    predicate Targeted() {
      customerCommandName.Some? && customerCommandName.value != ""
    }

    /** Builds a project's configuration from the service configuration and
        sets the names and parameters on it in place. */
    method AssemblyProjectConfig(variables: Variables, projectName: string) returns (config: ProjectConfig)
      ensures fresh(config)
      ensures config.fields == Assembled(variables.serviceConfig(projectName), variables.name, projectName, deployParams)
    {
      config := new ProjectConfig(variables.serviceConfig(projectName));
      config.Set("appName", variables.name);
      config.Set("ProjectName", Str(projectName));
      if Truthy(deployParams) {
        config.Set("params", deployParams);
        config.Set("Params", deployParams); // the legacy key
      }
    }

    /** The body of the inner `try` of `init` once the template is found:
        the output to report, or the exception that escapes. */
    function Execute(env: Collaborators): (r: Result<map<string, Value>, Thrown>) {
      if Targeted() then
        var project := customerCommandName.value;
        match env.variables
        case Failure(e) => Failure(Raised(e))
        case Success(vars) =>
          var config := Assembled(vars.serviceConfig(project), vars.name, project, deployParams);
          match env.component(config, methodName)
          case Failure(e) => Failure(ProjectFailed(project, RewriteMessage(e, project, methodName)))
          case Success(v) => Success(TargetedOutput(project, v))
      else
        var params := CascadeParams(deployParams);
        match env.variables
        case Failure(e) => Failure(Raised(e))
        case Success(_) =>
          match env.order
          case Failure(e) => Failure(Raised(e))
          case Success(order) => Success(CascadeOutput(order, env.cascade(order, methodName, params)))
    }

    /** How `init` ends. */
    function InitOutcome(env: Collaborators): (o: Outcome) {
      if !TemplateFound(env) then ErrorExit(TemplateMissing(templateFile))
      else
        match Execute(env)
        case Failure(t) => ErrorExit(Failed(t))
        case Success(output) => FinalOutcome(methodName, output, env.errorsRecorded)
    }

    /** The driver: find the template, run the targeted project or the
        cascade, collect the output and decide the outcome. */
    method Init(env: Collaborators) returns (outcome: Outcome)
      ensures outcome == InitOutcome(env)
    {
      if !TemplateFound(env) {
        return ErrorExit(TemplateMissing(templateFile));
      }
      var outPutData: map<string, Value> := map[];
      if Targeted() {
        var project := customerCommandName.value;
        if env.variables.Failure? {
          return ErrorExit(Failed(Raised(env.variables.error)));
        }
        var config := AssemblyProjectConfig(env.variables.value, project);
        // the source reads the project name back from this configuration after
        // the call; it is still `project` because a component call here cannot
        // change the configuration
        var tempResult := env.component(config.fields, methodName);
        if tempResult.Failure? {
          var detail := RewriteMessage(tempResult.error, project, methodName);
          return ErrorExit(Failed(ProjectFailed(project, detail)));
        }
        if Truthy(tempResult.value) {
          outPutData := outPutData[project := tempResult.value];
        }
      } else {
        var params := CascadeParams(deployParams);
        if env.variables.Failure? {
          return ErrorExit(Failed(Raised(env.variables.error)));
        }
        if env.order.Failure? {
          return ErrorExit(Failed(Raised(env.order.error)));
        }
        var executeOrderList := env.order.value;
        var tempResult := env.cascade(executeOrderList, methodName, params);
        outPutData := CollectCascadeOutput(executeOrderList, tempResult);
      }
      outcome := FinalOutcome(methodName, outPutData, env.errorsRecorded);
    }
  }

  // -----------------------------------------------------------------------
  // Properties of the driver

  /** A missing template, or an empty (falsy) template path, ends the run
      with -1 before anything is resolved. */
  lemma TemplateMissingExits(m: CommandManager, env: Collaborators)
    requires !TemplateFound(env)
    ensures m.InitOutcome(env) == ErrorExit(TemplateMissing(m.templateFile))
    ensures ExitCode(m.InitOutcome(env)) == -1
  {
  }

  /** Targeted mode computes no execution order and runs no cascade: its
      outcome does not depend on them. */
  lemma TargetedIgnoresCascade(m: CommandManager, env: Collaborators,
                               order: Result<seq<string>, string>,
                               cascade: (seq<string>, string, Value) -> map<string, Value>)
    requires m.Targeted()
    ensures m.InitOutcome(env) == m.InitOutcome(env.(order := order, cascade := cascade))
  {
  }

  /** A failed targeted call aborts the run: the exit is -1 and the error
      names the project, with a missing method reported by name. */
  lemma TargetedFailureAborts(m: CommandManager, env: Collaborators)
    requires m.Targeted() && TemplateFound(env) && env.variables.Success?
    requires
      var p := m.customerCommandName.value;
      var vars := env.variables.value;
      env.component(Assembled(vars.serviceConfig(p), vars.name, p, m.deployParams), m.methodName).Failure?
    ensures
      var p := m.customerCommandName.value;
      var vars := env.variables.value;
      var e := env.component(Assembled(vars.serviceConfig(p), vars.name, p, m.deployParams), m.methodName).error;
      && m.InitOutcome(env) == ErrorExit(Failed(ProjectFailed(p, RewriteMessage(e, p, m.methodName))))
      && ExitCode(m.InitOutcome(env)) == -1
      && (Includes(e, NotAFunction) ==> Includes(m.InitOutcome(env).reason.error.detail, m.methodName))
  {
  }

  /** A successful targeted call reports its truthy result under the
      project's name and nothing else; a falsy result leaves the output
      empty. */
  lemma TargetedSuccessReports(m: CommandManager, env: Collaborators)
    requires m.Targeted() && TemplateFound(env) && env.variables.Success? && !env.errorsRecorded
    requires
      var p := m.customerCommandName.value;
      var vars := env.variables.value;
      env.component(Assembled(vars.serviceConfig(p), vars.name, p, m.deployParams), m.methodName).Success?
    ensures
      var p := m.customerCommandName.value;
      var vars := env.variables.value;
      var v := env.component(Assembled(vars.serviceConfig(p), vars.name, p, m.deployParams), m.methodName).value;
      && (Truthy(v) ==> m.InitOutcome(env) == Completed(Dumped(map[p := v])))
      && (!Truthy(v) ==> m.InitOutcome(env) == Completed(EndOfMethod(EndOfMethodMessage(m.methodName))))
  {
  }

  /** A cascade reports only projects of the execution order, with their
      truthy results unchanged, and receives `''` in place of falsy
      parameters. */
  lemma CascadeReportsOrderedProjects(m: CommandManager, env: Collaborators)
    requires !m.Targeted() && TemplateFound(env) && env.variables.Success? && env.order.Success?
    requires !env.errorsRecorded
    ensures
      var order := env.order.value;
      var results := env.cascade(order, m.methodName, CascadeParams(m.deployParams));
      var out := CascadeOutput(order, results);
      && m.InitOutcome(env) == (if |out| == 0 then Completed(EndOfMethod(EndOfMethodMessage(m.methodName)))
                               else Completed(Dumped(out)))
      && (forall k :: k in out ==> k in order && Truthy(out[k]) && k in results && out[k] == results[k])
  {
  }

  /** Once the template is found and nothing is thrown, a recorded project
      failure ends the run with -1, even when there is output to show. */
  lemma RecordedFailureExits(m: CommandManager, env: Collaborators)
    requires TemplateFound(env) && m.Execute(env).Success? && env.errorsRecorded
    ensures m.InitOutcome(env) == ErrorExit(ProjectsFailed)
    ensures ExitCode(m.InitOutcome(env)) == -1
  {
  }

  /** Any exception escaping the targeted or cascade logic ends the run
      with -1. */
  lemma ThrownExits(m: CommandManager, env: Collaborators)
    requires TemplateFound(env) && m.Execute(env).Failure?
    ensures m.InitOutcome(env) == ErrorExit(Failed(m.Execute(env).error))
    ensures ExitCode(m.InitOutcome(env)) == -1
  {
  }

  /** A cycle (or any failure) in computing the order aborts a cascade
      before any project runs: the outcome does not depend on the cascade's
      results. */
  lemma OrderFailureRunsNothing(m: CommandManager, env: Collaborators,
                                cascade: (seq<string>, string, Value) -> map<string, Value>)
    requires !m.Targeted() && TemplateFound(env) && env.variables.Success? && env.order.Failure?
    ensures m.InitOutcome(env) == ErrorExit(Failed(Raised(env.order.error)))
    ensures m.InitOutcome(env.(cascade := cascade)) == m.InitOutcome(env)
  {
  }
}
