/** Earth Engine initialization: a three-field initializer whose `initialize` picks
    one of three strategies in a fixed order, records the project and method on
    success and maps failures to authentication errors. The engine call, the
    credentials-file check and project detection are parameters. */
module EeInit {
  import opened Common

  const HighVolumeUrl: string := "https://earthengine-highvolume.googleapis.com"
  const NotRegistered: string := "Earth Engine account not registered. Visit https://earthengine.google.com/signup/"
  const ProjectNotAuthorized: string :=
    "Project not found or not authorized. Specify a valid project with: initialize(project='your-project-id')"
  const InteractiveRequired: string := "Interactive authentication required. Run 'earthengine authenticate' in terminal."
  const PersistentMethod: string := "persistent_credentials"
  const ServiceAccountMethod: string := "service_account"

  /** An exception raised while initializing: the engine's own exception type, or any other. */
  datatype Failure = EEException(message: string) | OtherException(message: string)

  /** What creating the credentials and calling `ee.Initialize` does. */
  datatype EngineOutcome = Initialized | Raised(failure: Failure)

  /** A Python string argument used as a condition: present and non-empty. */
  predicate Truthy(s: Option<string>) {
    s.Some? && s.value != ""
  }

  datatype Strategy = ServiceAccountStrategy | PersistentStrategy | InteractiveStrategy

  /** Service account when both its fields are given, else stored credentials when the file exists, else interactive. */
  function ChooseStrategy(serviceAccount: Option<string>, privateKeyFile: Option<string>, hasCredentials: bool): Strategy {
    if Truthy(serviceAccount) && Truthy(privateKeyFile) then ServiceAccountStrategy
    else if hasCredentials then PersistentStrategy
    else InteractiveStrategy
  }

  /** The arguments of the `ee.Initialize` call a strategy makes. */
  datatype EngineCall = EngineCall(serviceAccount: Option<(string, string)>, project: Option<string>, optUrl: Option<string>)

  function OptUrl(useHighVolume: bool): (u: Option<string>)
    ensures u.Some? <==> useHighVolume
  {
    if useHighVolume then Some(HighVolumeUrl) else None
  }

  /** The engine call `initialize` makes; the interactive strategy never calls the engine. */
  function EngineCallFor(project: Option<string>, serviceAccount: Option<string>, privateKeyFile: Option<string>,
                         hasCredentials: bool, useHighVolume: bool): (c: Option<EngineCall>)
    ensures c.None? <==> ChooseStrategy(serviceAccount, privateKeyFile, hasCredentials) == InteractiveStrategy
    ensures c.Some? ==> c.value.optUrl == OptUrl(useHighVolume)
    ensures c.Some? ==> (c.value.serviceAccount.Some? <==> Truthy(serviceAccount) && Truthy(privateKeyFile))
    ensures c.Some? && c.value.serviceAccount.Some? ==> c.value.project == project
    ensures c.Some? && c.value.serviceAccount.None? ==> (c.value.project.Some? <==> Truthy(project))
  {
    if Truthy(serviceAccount) && Truthy(privateKeyFile) then
      Some(EngineCall(Some((serviceAccount.value, privateKeyFile.value)), project, OptUrl(useHighVolume)))
    else if hasCredentials then
      Some(EngineCall(None, if Truthy(project) then project else None, OptUrl(useHighVolume)))
    else None
  }

  /** The error the stored-credentials path raises for a failure: engine exceptions are classified by
      their lower-cased message, registration before project; other exceptions propagate unchanged. */
  function PersistentError(f: Failure): (e: Error)
    ensures f.OtherException? ==> e == EngineError(f.message)
    ensures f.EEException? ==> e.AuthError?
    ensures f.EEException? && Contains(Lower(f.message), "not signed up") ==> e == AuthError(NotRegistered)
    ensures f.EEException? && !Contains(Lower(f.message), "not signed up") && Contains(Lower(f.message), "project")
            ==> e == AuthError(ProjectNotAuthorized)
    ensures f.EEException? && !Contains(Lower(f.message), "not signed up") && !Contains(Lower(f.message), "project")
            ==> e == AuthError("Initialization failed: " + f.message)
  {
    match f
    case OtherException(m) => EngineError(m)
    case EEException(m) =>
      var lower := Lower(m);
      if Contains(lower, "not signed up") then AuthError(NotRegistered)
      else if Contains(lower, "project") then AuthError(ProjectNotAuthorized)
      else AuthError("Initialization failed: " + m)
  }

  /** The service-account path wraps every failure. */
  function ServiceAccountError(f: Failure): Error {
    AuthError("Service account authentication failed: " + f.message)
  }

  /** The three fields of an initializer. */
  datatype InitState = InitState(initialized: bool, project: Option<string>, authMethod: Option<string>)

  /** `initialize`: the new state and the outcome, from the old state, the arguments and the environment
      (whether the credentials file exists, what the engine call does, what project detection finds). */
  function InitializeSpec(s: InitState, project: Option<string>, serviceAccount: Option<string>,
                          privateKeyFile: Option<string>, force: bool, hasCredentials: bool,
                          outcome: EngineOutcome, detected: Option<string>): (InitState, Result<bool>)
  {
    if s.initialized && !force then (s, Ok(true))
    else
      match ChooseStrategy(serviceAccount, privateKeyFile, hasCredentials)
      case ServiceAccountStrategy =>
        if outcome.Raised? then (s, Err(ServiceAccountError(outcome.failure)))
        else (InitState(true, project, Some(ServiceAccountMethod)), Ok(true))
      case PersistentStrategy =>
        if outcome.Raised? then (s, Err(PersistentError(outcome.failure)))
        else (InitState(true, if Truthy(project) then project else detected, Some(PersistentMethod)), Ok(true))
      case InteractiveStrategy => (s, Err(AuthError(InteractiveRequired)))
  }

  /** The fields agree: an initializer is initialized exactly when it records a method, and an
      uninitialized one records no project. */
  predicate Consistent(s: InitState) {
    (s.initialized <==> s.authMethod.Some?) && (!s.initialized ==> s.project.None?)
  }

  /** Already initialized and not forced: nothing changes and the answer is True. */
  lemma AlreadyInitializedNoop(s: InitState, project: Option<string>, serviceAccount: Option<string>,
                               privateKeyFile: Option<string>, hasCredentials: bool,
                               outcome: EngineOutcome, detected: Option<string>)
    requires s.initialized
    ensures InitializeSpec(s, project, serviceAccount, privateKeyFile, false, hasCredentials, outcome, detected) == (s, Ok(true))
  {
  }

  /** A failed initialization leaves all three fields as they were; a successful one answers True and
      leaves the initializer initialized with a recorded method. */
  lemma {:induction false} OutcomeAndState(s: InitState, project: Option<string>, serviceAccount: Option<string>,
                                           privateKeyFile: Option<string>, force: bool, hasCredentials: bool,
                                           outcome: EngineOutcome, detected: Option<string>)
    requires Consistent(s)
    ensures var (s', r) := InitializeSpec(s, project, serviceAccount, privateKeyFile, force, hasCredentials, outcome, detected);
            (r.Err? ==> s' == s)
            && (r.Ok? ==> r.value && s'.initialized && s'.authMethod.Some?)
            && (r.Err? ==> r.error.AuthError? || r.error.EngineError?)
            && Consistent(s')
  {
    var strategy := ChooseStrategy(serviceAccount, privateKeyFile, hasCredentials);
    if outcome.Raised? && strategy == PersistentStrategy {
      assert PersistentError(outcome.failure).AuthError? || PersistentError(outcome.failure).EngineError?;
    }
  }

  /** Which strategy runs, and what it records: the service account whenever both of its fields are given
      (even with stored credentials), recording the project as given; stored credentials otherwise,
      recording the given project or, failing that, the detected one; and without either, an
      authentication error whatever the engine would do. */
  lemma {:induction false} StrategyOrder(s: InitState, project: Option<string>, serviceAccount: Option<string>,
                                         privateKeyFile: Option<string>, force: bool, hasCredentials: bool,
                                         outcome: EngineOutcome, detected: Option<string>)
    requires !s.initialized || force
    ensures var (s', r) := InitializeSpec(s, project, serviceAccount, privateKeyFile, force, hasCredentials, outcome, detected);
            (Truthy(serviceAccount) && Truthy(privateKeyFile) && outcome == Initialized ==>
               r == Ok(true) && s' == InitState(true, project, Some(ServiceAccountMethod)))
            && (!(Truthy(serviceAccount) && Truthy(privateKeyFile)) && hasCredentials && outcome == Initialized ==>
               r == Ok(true) && s'.authMethod == Some(PersistentMethod)
               && s'.project == (if Truthy(project) then project else detected))
            && (!(Truthy(serviceAccount) && Truthy(privateKeyFile)) && !hasCredentials ==>
               r == Err(AuthError(InteractiveRequired)) && s' == s)
  {
  }

  /** The status `test_connection` reports. */
  datatype ConnectionStatus = ConnectionStatus(connected: bool, error: Option<string>, project: Option<string>,
                                               authMethod: Option<string>, testResult: Option<string>)

  class EEInitializer {
    var initialized: bool
    var project: Option<string>
    var authMethod: Option<string>

    function State(): InitState
      reads this
    {
      InitState(initialized, project, authMethod)
    }

    constructor()
      ensures State() == InitState(false, None, None) && Consistent(State())
    {
      initialized := false;
      project := None;
      authMethod := None;
    }

    /** `initialize` */
    method Initialize(project': Option<string>, serviceAccount: Option<string>, privateKeyFile: Option<string>,
                      useHighVolume: bool, force: bool, hasCredentials: bool, outcome: EngineOutcome,
                      detected: Option<string>) returns (r: Result<bool>)
      modifies this
      ensures (State(), r) == InitializeSpec(old(State()), project', serviceAccount, privateKeyFile, force,
                                             hasCredentials, outcome, detected)
    {
      if initialized && !force {
        return Ok(true);
      }
      if Truthy(serviceAccount) && Truthy(privateKeyFile) {
        assert ChooseStrategy(serviceAccount, privateKeyFile, hasCredentials) == ServiceAccountStrategy;
        r := InitServiceAccount(project', outcome);
        return;
      }
      if hasCredentials {
        assert ChooseStrategy(serviceAccount, privateKeyFile, hasCredentials) == PersistentStrategy;
        r := InitPersistent(project', outcome, detected);
        return;
      }
      r := Err(AuthError(InteractiveRequired));
    }

    /** `_init_persistent` */
    method InitPersistent(project': Option<string>, outcome: EngineOutcome, detected: Option<string>) returns (r: Result<bool>)
      modifies this
      ensures outcome.Raised? ==> r == Err(PersistentError(outcome.failure)) && State() == old(State())
      ensures outcome == Initialized ==>
                r == Ok(true) && State() == InitState(true, if Truthy(project') then project' else detected, Some(PersistentMethod))
    {
      if outcome.Raised? {
        return Err(PersistentError(outcome.failure));
      }
      initialized := true;
      project := if Truthy(project') then project' else detected;
      authMethod := Some(PersistentMethod);
      r := Ok(true);
    }

    /** `_init_service_account` */
    method InitServiceAccount(project': Option<string>, outcome: EngineOutcome) returns (r: Result<bool>)
      modifies this
      ensures outcome.Raised? ==> r == Err(ServiceAccountError(outcome.failure)) && State() == old(State())
      ensures outcome == Initialized ==> r == Ok(true) && State() == InitState(true, project', Some(ServiceAccountMethod))
    {
      if outcome.Raised? {
        return Err(ServiceAccountError(outcome.failure));
      }
      initialized := true;
      project := project';
      authMethod := Some(ServiceAccountMethod);
      r := Ok(true);
    }

    /** `test_connection`: without initialization the engine is not asked; otherwise `probe` is what the
        engine's date request returns. */
    function TestConnection(probe: Result<string>): (st: ConnectionStatus)
      reads this
      ensures !initialized ==> st == ConnectionStatus(false, Some("Not initialized"), None, None, None)
      ensures initialized ==> st.project == project && st.authMethod == authMethod
      ensures initialized ==> (st.connected <==> probe.Ok?)
      ensures initialized && probe.Err? ==> st.error == Some(Message(probe.error))
    {
      if !initialized then ConnectionStatus(false, Some("Not initialized"), None, None, None)
      else if probe.Ok? then ConnectionStatus(true, None, project, authMethod, Some(probe.value))
      else ConnectionStatus(false, Some(Message(probe.error)), project, authMethod, None)
    }
  }

  /** `authenticate`: True, or the engine's failure wrapped as an authentication error. */
  function Authenticate(outcome: Option<Failure>): (r: Result<bool>)
    ensures r.Ok? <==> outcome.None?
    ensures r.Err? ==> r.error == AuthError("Authentication failed: " + outcome.value.message)
  {
    if outcome.None? then Ok(true) else Err(AuthError("Authentication failed: " + outcome.value.message))
  }
}
