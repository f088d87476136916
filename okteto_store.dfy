/**
 * OktetoProvider's store as an object: five fields that its operations
 * update in place. Every method except RefreshContext (the first half of
 * PollTick, specified field by field) is proved to take exactly the step the
 * state machine in StoreSpec describes, and to keep that machine's invariant.
 */
module OktetoProvider {
  import opened Wrappers
  import opened OktetoContext
  import opened StoreSpec

  class OktetoStore {
    var currentContext: Option<Context>
    var contextList: seq<Context>
    var environment: Option<Environment>
    var loading: bool
    var ready: bool

    /** `new URL(name).protocol`, or None when it throws: one parser for the store's lifetime. */
    const urlProtocol: UrlProtocol

    /** The store's fields as one value. */
    function State(): StoreState
      reads this
    {
      StoreState(currentContext, contextList, environment, loading, ready)
    }

    ghost predicate Valid()
      reads this
    {
      Consistent(State())
    }

    /** The state the provider is mounted with. */
    constructor (urlProtocol: UrlProtocol)
      ensures Valid()
      ensures State() == Initial
      ensures this.urlProtocol == urlProtocol
    {
      this.urlProtocol := urlProtocol;
      currentContext := None;
      contextList := [];
      environment := None;
      loading := false;
      ready := false;
      InitialConsistent();
    }

    /**
     * refreshContext, once `contextList()` has answered with `listed`: store
     * the list, then clear or replace the current context.
     */
    method RefreshContext(listed: Option<seq<Context>>)
      modifies this
      ensures contextList == ListOrEmpty(listed)
      ensures currentContext == Reconcile(ListOrEmpty(listed), old(currentContext))
      ensures environment == old(environment) && loading == old(loading) && ready == old(ready)
    {
      var list := ListOrEmpty(listed);
      contextList := list;
      var isLoggedIn := Find(list, (c: Context) => c.name == DefaultContextName);
      var context := Find(list, (c: Context) => c.current);
      if isLoggedIn.None? {
        currentContext := None;
      } else if context.Some? {
        currentContext := context;
      }
    }

    /**
     * One tick of the poll: do nothing while an operation is loading, else
     * list the contexts (whose answer is `listed`), refresh and become ready.
     */
    method PollTick(listed: Option<seq<Context>>) returns (call: Option<CliCall>)
      requires Valid()
      modifies this
      ensures Valid()
      ensures call == CallOf(old(State()), Event.PollTick(listed))
      ensures State() == Step(old(State()), Event.PollTick(listed), urlProtocol)
      ensures old(loading) ==> call == None && State() == old(State())
      ensures old(ready) ==> ready
    {
      if loading {
        return None;
      }
      call := Some(ContextList);
      RefreshContext(listed);
      ready := true;
      StepConsistent(old(State()), Event.PollTick(listed), urlProtocol);
    }

    /** login, up to its call: become busy and ask the CLI to use the default context. */
    method BeginLogin() returns (call: CliCall)
      requires Valid()
      modifies this
      ensures Valid()
      ensures Some(call) == CallOf(old(State()), LoginStarted)
      ensures State() == Step(old(State()), LoginStarted, urlProtocol)
    {
      loading := true;
      call := ContextUse(DefaultContextName);
      StepConsistent(old(State()), LoginStarted, urlProtocol);
    }

    /** login, after its call: the result is discarded and the store is no longer busy. */
    method EndLogin()
      requires Valid()
      modifies this
      ensures Valid()
      ensures State() == Step(old(State()), LoginFinished, urlProtocol)
      ensures currentContext == old(currentContext) && !loading
    {
      loading := false;
      StepConsistent(old(State()), LoginFinished, urlProtocol);
    }

    /** logout, up to its call: become busy and ask the CLI to delete the default context. */
    method BeginLogout() returns (call: CliCall)
      requires Valid()
      modifies this
      ensures Valid()
      ensures Some(call) == CallOf(old(State()), LogoutStarted)
      ensures State() == Step(old(State()), LogoutStarted, urlProtocol)
    {
      loading := true;
      call := ContextDelete(DefaultContextName);
      StepConsistent(old(State()), LogoutStarted, urlProtocol);
    }

    /** logout, after its call: drop the environment and stop being busy. */
    method EndLogout()
      requires Valid()
      modifies this
      ensures Valid()
      ensures State() == Step(old(State()), LogoutFinished, urlProtocol)
      ensures environment == None && !loading
    {
      environment := None;
      loading := false;
      StepConsistent(old(State()), LogoutFinished, urlProtocol);
    }

    /** selectContext, up to its call: become busy and ask the CLI to use `contextName`. */
    method BeginSelectContext(contextName: string) returns (call: CliCall)
      requires Valid()
      modifies this
      ensures Valid()
      ensures Some(call) == CallOf(old(State()), SelectContextStarted(contextName))
      ensures State() == Step(old(State()), SelectContextStarted(contextName), urlProtocol)
    {
      loading := true;
      call := ContextUse(contextName);
      StepConsistent(old(State()), SelectContextStarted(contextName), urlProtocol);
    }

    /** selectContext, after its call answered `used`: adopt that context if there is one. */
    method EndSelectContext(used: Option<Context>)
      requires Valid()
      modifies this
      ensures Valid()
      ensures State() == Step(old(State()), SelectContextFinished(used), urlProtocol)
      ensures currentContext == (if used.Some? then used else old(currentContext)) && !loading
    {
      if used.Some? {
        currentContext := used;
      }
      loading := false;
      StepConsistent(old(State()), SelectContextFinished(used), urlProtocol);
    }

    /** selectEnvironment: launch `file`, with a dashboard link when the context allows one. */
    method SelectEnvironment(file: string)
      requires Valid()
      modifies this
      ensures Valid()
      ensures State() == Step(old(State()), EnvironmentSelected(file), urlProtocol)
      ensures environment == Some(Environment(file, EnvironmentLink(currentContext, urlProtocol)))
    {
      var link := EnvironmentLink(currentContext, urlProtocol);
      environment := Some(Environment(file, link));
      StepConsistent(old(State()), EnvironmentSelected(file), urlProtocol);
    }

    /** stopEnvironment: forget the launched environment. */
    method StopEnvironment()
      requires Valid()
      modifies this
      ensures Valid()
      ensures State() == Step(old(State()), EnvironmentStopped, urlProtocol)
      ensures environment == None
    {
      environment := None;
      StepConsistent(old(State()), EnvironmentStopped, urlProtocol);
    }
  }

  /**
   * A poll tick that arrives while a login is in flight makes no call and
   * changes nothing (`midCall`, `mid`); after the login, a tick that reports
   * the default context as current makes it the current context.
   */
  method LoginWithPolls(store: OktetoStore, ns: Option<string>)
    returns (midCall: Option<CliCall>, mid: StoreState)
    requires store.Valid()
    modifies store
    ensures midCall == None && mid == old(store.State()).(loading := true)
    ensures store.Valid()
    ensures store.currentContext == Some(Context(DefaultContextName, ns, true))
    ensures !store.loading && store.ready
  {
    var cloud := Context(DefaultContextName, ns, true);
    var call := store.BeginLogin();
    midCall := store.PollTick(Some([]));
    mid := store.State();
    store.EndLogin();
    var tick := store.PollTick(Some([cloud]));
    assert HasDefault([cloud]) by { assert [cloud][0].name == DefaultContextName; }
    assert IsFirstCurrent([cloud], 0);
    ReconcileFirstCurrentWins([cloud], mid.currentContext, 0);
  }
}
