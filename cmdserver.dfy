/**
 * The launcher's command server (pkg/virt-launcher/virtwrap/cmd-server/server.go):
 * the RPC handlers the node agent calls to start, kill and shut down the VM
 * of a launcher, to sync its secrets and to list its libvirt domains, and
 * the key libvirt domain names are made of.
 *
 * Every handler returns a nil error and reports through its Reply: Success
 * is set first, and the first step that fails clears it and leaves its
 * message. The domain manager, the libvirt connection and JSON are outside
 * the model: their outcomes are inputs, and what a handler asks of them is
 * returned as a sequence of steps.
 */
module CmdServer {
  import opened Wrappers
  import opened Strings
  import opened Errors

  /** k8sv1.NamespaceDefault. */
  const NamespaceDefault := "default"

  // ---------------------------------------------------------------------
  // Domain names

  /**
   * splitVMNamespaceKey: a domain name is "NAMESPACE_NAME", split at its
   * first '_'; a name without '_' is in the default namespace.
   */
  function SplitVMNamespaceKey(domainName: string): (r: (string, string))
    ensures '_' !in domainName ==> r == (NamespaceDefault, domainName)
    ensures '_' in domainName ==> '_' !in r.0 && r.0 + "_" + r.1 == domainName
  {
    var split := SplitN(domainName, '_', 2);
    if |split| == 1 then
      (NamespaceDefault, split[0])
    else
      assert Join(split[1..], '_') == split[1];
      (split[0], split[1])
  }

  /** The key of a namespace without '_' and any name splits back into both; the name may hold '_'. */
  lemma SplitVMNamespaceKeyRoundTrip(namespace: string, name: string)
    requires '_' !in namespace
    ensures SplitVMNamespaceKey(namespace + "_" + name) == (namespace, name)
  {
    SplitNConcat(namespace, name, '_', 1);
    assert namespace + "_" + name == namespace + ['_'] + name;
  }

  // ---------------------------------------------------------------------
  // Replies and the outside world

  /** cmdclient.Reply, which each handler fills in. */
  class Reply {
    var success: bool
    var message: string
    var domainListJSON: string

    /** A zero Reply, as net/rpc hands one to a handler. */
    constructor ()
      ensures !success && message == "" && domainListJSON == ""
    {
      success, message, domainListJSON := false, "", "";
    }
  }

  /** The VM object a request carries; only its identity matters here. */
  datatype VirtualMachine = VirtualMachine(namespace: string, name: string)

  /** The Kubernetes secrets of a Start request, by name. */
  type Secrets = map<string, string>

  /** cmdclient.Args. */
  datatype Args = Args(vmJSON: string, k8SecretMapJSON: string, secretUsageType: string,
                       secretUsageID: string, secretValue: string)

  /** A domain as the list reports it. The spec stands for the decoded domain description. */
  datatype Domain = Domain(namespace: string, name: string, spec: string, status: int, reason: int)

  /** What json.Unmarshal and json.Marshal give for the values the server decodes and encodes. */
  datatype Json = Json(
    decodeVM: string -> Result<VirtualMachine, Error>,
    decodeSecrets: string -> Result<Secrets, Error>,
    encodeDomains: seq<Domain> -> Result<string, Error>)

  /** The outcomes of the domain manager's operations. */
  datatype DomainManager = DomainManager(
    syncVMSecret: (VirtualMachine, string, string, string) -> Option<Error>,
    syncVM: (VirtualMachine, Secrets) -> Option<Error>,
    killVM: VirtualMachine -> Option<Error>,
    signalShutdownVM: VirtualMachine -> Option<Error>)

  /** One libvirt domain: the outcomes of GetName, of util.GetDomainSpec and of GetState. */
  datatype VirDomain = VirDomain(name: Result<string, Error>, spec: Result<string, Error>, state: Result<(int, int), Error>)

  /** What a handler does, in order. */
  datatype Step =
    | DecodeVM
    | DecodeSecrets
    | SyncVMSecret(vm: VirtualMachine, usageType: string, usageID: string, value: string)
    | SyncVM(vm: VirtualMachine, secrets: Secrets)
    | KillVM(vm: VirtualMachine)
    | SignalShutdownVM(vm: VirtualMachine)

  /**
   * The reply discipline of the handlers: Success exactly when no step
   * failed, the failure's text as Message when one did, and nothing else
   * of the Reply touched.
   */
  twostate predicate RepliedWith(reply: Reply, new failure: Option<Error>)
    reads reply
  {
    reply.success == failure.None? &&
    reply.message == (if failure.Some? then Text(failure.value) else old(reply.message)) &&
    reply.domainListJSON == old(reply.domainListJSON)
  }

  /** k8s errors.IsNotFound. */
  predicate IsNotFound(e: Error)
  {
    e.NotFoundStatus?
  }

  // ---------------------------------------------------------------------
  // Listing domains

  /** What ListDomains makes of one libvirt domain. */
  datatype Listed = Keep(domain: Domain) | Skip | Abort(error: Error)

  /**
   * newDomain, GetDomainSpec and GetState in turn: the first failure skips
   * the domain when it is NotFound and aborts the listing otherwise.
   */
  function ListedOf(dom: VirDomain): (l: Listed)
    ensures l.Skip? <==>
              (dom.name.Failure? && IsNotFound(dom.name.error)) ||
              (dom.name.Success? && dom.spec.Failure? && IsNotFound(dom.spec.error)) ||
              (dom.name.Success? && dom.spec.Success? && dom.state.Failure? && IsNotFound(dom.state.error))
    ensures l.Keep? <==> dom.name.Success? && dom.spec.Success? && dom.state.Success?
    ensures l.Keep? ==>
              (l.domain.namespace, l.domain.name) == SplitVMNamespaceKey(dom.name.value) &&
              l.domain.spec == dom.spec.value && (l.domain.status, l.domain.reason) == dom.state.value
  {
    match dom.name
    case Failure(e) => if IsNotFound(e) then Skip else Abort(e)
    case Success(domainName) =>
      var (namespace, name) := SplitVMNamespaceKey(domainName);
      match dom.spec
      case Failure(e) => if IsNotFound(e) then Skip else Abort(e)
      case Success(spec) =>
        match dom.state
        case Failure(e) => if IsNotFound(e) then Skip else Abort(e)
        case Success((status, reason)) => Keep(Domain(namespace, name, spec, status, reason))
  }

  /** No domain of `doms[..k]` aborts the listing. */
  predicate NoAbortBefore(doms: seq<VirDomain>, k: nat)
    requires k <= |doms|
  {
    forall j :: 0 <= j < k ==> !ListedOf(doms[j]).Abort?
  }

  /** The list ListDomains builds: the kept domains in order, or the error of the first that aborts. */
  function Collect(doms: seq<VirDomain>): (r: Result<seq<Domain>, Error>)
    ensures r.Success? <==> NoAbortBefore(doms, |doms|)
    ensures r.Success? ==> |r.value| <= |doms|
    ensures r.Failure? ==>
              exists k :: 0 <= k < |doms| && NoAbortBefore(doms, k) && ListedOf(doms[k]) == Abort(r.error)
    decreases |doms|
  {
    if |doms| == 0 then Success([])
    else
      var init := doms[..|doms| - 1];
      assert forall j :: 0 <= j < |init| ==> init[j] == doms[j];
      match Collect(init)
      case Failure(e) => Failure(e)
      case Success(list) =>
        match ListedOf(doms[|doms| - 1])
        case Keep(d) => Success(list + [d])
        case Skip => Success(list)
        case Abort(e) => Failure(e)
  }

  /** Listing two runs of domains lists each in turn, in their order. */
  lemma {:induction false} CollectConcat(a: seq<VirDomain>, b: seq<VirDomain>)
    requires Collect(a).Success? && Collect(b).Success?
    ensures Collect(a + b) == Success(Collect(a).value + Collect(b).value)
    decreases |b|
  {
    if |b| == 0 {
      assert a + b == a;
      assert Collect(a).value + Collect(b).value == Collect(a).value;
    } else {
      var init := b[..|b| - 1];
      assert (a + b)[..|a + b| - 1] == a + init;
      assert (a + b)[|a + b| - 1] == b[|b| - 1];
      assert Collect(init).Success? by {
        assert forall j :: 0 <= j < |init| ==> init[j] == b[j];
      }
      CollectConcat(a, init);
      var last := b[|b| - 1];
      if ListedOf(last).Keep? {
        var d := ListedOf(last).domain;
        assert Collect(a).value + Collect(init).value + [d] == Collect(a).value + (Collect(init).value + [d]);
      }
    }
  }

  /** A domain that vanished is left out and nothing else changes. */
  lemma CollectSkips(doms: seq<VirDomain>, dom: VirDomain)
    requires ListedOf(dom).Skip?
    ensures Collect(doms + [dom]) == Collect(doms)
  {
    assert (doms + [dom])[..|doms|] == doms;
  }

  // ---------------------------------------------------------------------
  // The handlers

  class Launcher {
    const json: Json
    const manager: DomainManager
    /** The outcome of ListAllDomains on the libvirt connection. */
    const listAllDomains: Result<seq<VirDomain>, Error>

    constructor (json: Json, manager: DomainManager, listAllDomains: Result<seq<VirDomain>, Error>)
      ensures this.json == json && this.manager == manager && this.listAllDomains == listAllDomains
    {
      this.json := json;
      this.manager := manager;
      this.listAllDomains := listAllDomains;
    }

    /** SyncSecret: decode the VM, then sync the secret it names. */
    method SyncSecret(args: Args, reply: Reply) returns (err: Option<Error>, steps: seq<Step>)
      modifies reply
      ensures err.None?
      ensures json.decodeVM(args.vmJSON).Failure? ==>
                steps == [DecodeVM] && RepliedWith(reply, Some(json.decodeVM(args.vmJSON).error))
      ensures json.decodeVM(args.vmJSON).Success? ==>
                var vm := json.decodeVM(args.vmJSON).value;
                steps == [DecodeVM, SyncVMSecret(vm, args.secretUsageType, args.secretUsageID, args.secretValue)] &&
                RepliedWith(reply, manager.syncVMSecret(vm, args.secretUsageType, args.secretUsageID, args.secretValue))
    {
      reply.success := true;
      steps := [DecodeVM];
      var vm := json.decodeVM(args.vmJSON);
      if vm.Failure? {
        reply.success := false;
        reply.message := Text(vm.error);
        return None, steps;
      }
      steps := steps + [SyncVMSecret(vm.value, args.secretUsageType, args.secretUsageID, args.secretValue)];
      var e := manager.syncVMSecret(vm.value, args.secretUsageType, args.secretUsageID, args.secretValue);
      if e.Some? {
        reply.success := false;
        reply.message := Text(e.value);
        return None, steps;
      }
      return None, steps;
    }

    /** Start: decode the VM, then the secrets, then sync the VM; the first failure stops it. */
    method Start(args: Args, reply: Reply) returns (err: Option<Error>, steps: seq<Step>)
      modifies reply
      ensures err.None?
      ensures json.decodeVM(args.vmJSON).Failure? ==>
                steps == [DecodeVM] && RepliedWith(reply, Some(json.decodeVM(args.vmJSON).error))
      ensures json.decodeVM(args.vmJSON).Success? && json.decodeSecrets(args.k8SecretMapJSON).Failure? ==>
                steps == [DecodeVM, DecodeSecrets] &&
                RepliedWith(reply, Some(json.decodeSecrets(args.k8SecretMapJSON).error))
      ensures json.decodeVM(args.vmJSON).Success? && json.decodeSecrets(args.k8SecretMapJSON).Success? ==>
                var vm := json.decodeVM(args.vmJSON).value;
                var secrets := json.decodeSecrets(args.k8SecretMapJSON).value;
                steps == [DecodeVM, DecodeSecrets, SyncVM(vm, secrets)] &&
                RepliedWith(reply, manager.syncVM(vm, secrets))
    {
      reply.success := true;
      steps := [DecodeVM];
      var vm := json.decodeVM(args.vmJSON);
      if vm.Failure? {
        reply.success := false;
        reply.message := Text(vm.error);
        return None, steps;
      }
      steps := steps + [DecodeSecrets];
      var secrets := json.decodeSecrets(args.k8SecretMapJSON);
      if secrets.Failure? {
        reply.success := false;
        reply.message := Text(secrets.error);
        return None, steps;
      }
      steps := steps + [SyncVM(vm.value, secrets.value)];
      var e := manager.syncVM(vm.value, secrets.value);
      if e.Some? {
        reply.success := false;
        reply.message := Text(e.value);
        return None, steps;
      }
      return None, steps;
    }

    /** Kill: decode the VM, then kill it. */
    method Kill(args: Args, reply: Reply) returns (err: Option<Error>, steps: seq<Step>)
      modifies reply
      ensures err.None?
      ensures json.decodeVM(args.vmJSON).Failure? ==>
                steps == [DecodeVM] && RepliedWith(reply, Some(json.decodeVM(args.vmJSON).error))
      ensures json.decodeVM(args.vmJSON).Success? ==>
                var vm := json.decodeVM(args.vmJSON).value;
                steps == [DecodeVM, KillVM(vm)] && RepliedWith(reply, manager.killVM(vm))
    {
      reply.success := true;
      steps := [DecodeVM];
      var vm := json.decodeVM(args.vmJSON);
      if vm.Failure? {
        reply.success := false;
        reply.message := Text(vm.error);
        return None, steps;
      }
      steps := steps + [KillVM(vm.value)];
      var e := manager.killVM(vm.value);
      if e.Some? {
        reply.success := false;
        reply.message := Text(e.value);
        return None, steps;
      }
      return None, steps;
    }

    /** Shutdown: decode the VM, then signal it to shut down. */
    method Shutdown(args: Args, reply: Reply) returns (err: Option<Error>, steps: seq<Step>)
      modifies reply
      ensures err.None?
      ensures json.decodeVM(args.vmJSON).Failure? ==>
                steps == [DecodeVM] && RepliedWith(reply, Some(json.decodeVM(args.vmJSON).error))
      ensures json.decodeVM(args.vmJSON).Success? ==>
                var vm := json.decodeVM(args.vmJSON).value;
                steps == [DecodeVM, SignalShutdownVM(vm)] && RepliedWith(reply, manager.signalShutdownVM(vm))
    {
      reply.success := true;
      steps := [DecodeVM];
      var vm := json.decodeVM(args.vmJSON);
      if vm.Failure? {
        reply.success := false;
        reply.message := Text(vm.error);
        return None, steps;
      }
      steps := steps + [SignalShutdownVM(vm.value)];
      var e := manager.signalShutdownVM(vm.value);
      if e.Some? {
        reply.success := false;
        reply.message := Text(e.value);
        return None, steps;
      }
      return None, steps;
    }

    /**
     * ListDomains: lists the domains, skipping those that vanished, and
     * stores their encoding; any other failure clears Success. It never
     * sets Success itself.
     */
    method ListDomains(args: Args, reply: Reply) returns (err: Option<Error>)
      modifies reply
      ensures err.None?
      ensures reply.success ==> old(reply.success)
      ensures listAllDomains.Failure? ==> RepliedWith(reply, Some(listAllDomains.error))
      ensures listAllDomains.Success? && Collect(listAllDomains.value).Failure? ==>
                RepliedWith(reply, Some(Collect(listAllDomains.value).error))
      ensures listAllDomains.Success? && Collect(listAllDomains.value).Success? ==>
                var encoded := json.encodeDomains(Collect(listAllDomains.value).value);
                (encoded.Failure? ==> RepliedWith(reply, Some(encoded.error))) &&
                (encoded.Success? ==>
                   reply.success == old(reply.success) && reply.message == old(reply.message) &&
                   reply.domainListJSON == encoded.value)
    {
      if listAllDomains.Failure? {
        reply.success := false;
        reply.message := Text(listAllDomains.error);
        return None;
      }
      var doms := listAllDomains.value;
      var list: seq<Domain> := [];
      var i := 0;
      while i < |doms|
        invariant 0 <= i <= |doms|
        invariant Collect(doms[..i]) == Success(list)
      {
        assert doms[..i + 1][..i] == doms[..i];
        var listed := ListedOf(doms[i]);
        if listed.Skip? {
          i := i + 1;
          continue;
        }
        if listed.Abort? {
          AbortStops(doms, i);
          reply.success := false;
          reply.message := Text(listed.error);
          return None;
        }
        list := list + [listed.domain];
        i := i + 1;
      }
      assert doms[..i] == doms;
      var encoded := json.encodeDomains(list);
      if encoded.Failure? {
        reply.success := false;
        reply.message := Text(encoded.error);
        return None;
      }
      reply.domainListJSON := encoded.value;
      return None;
    }

    /** Ping: Success and nothing else. */
    method Ping(args: Args, reply: Reply) returns (err: Option<Error>)
      modifies reply
      ensures err.None? && RepliedWith(reply, None)
    {
      reply.success := true;
      return None;
    }
  }

  /** Once the domain at `i` aborts after a clean prefix, the whole listing fails with its error. */
  lemma {:induction false} AbortStops(doms: seq<VirDomain>, i: nat)
    requires i < |doms| && Collect(doms[..i]).Success? && ListedOf(doms[i]).Abort?
    ensures Collect(doms) == Failure(ListedOf(doms[i]).error)
    decreases |doms|
  {
    if i == |doms| - 1 {
      assert doms[..|doms| - 1] == doms[..i];
    } else {
      var init := doms[..|doms| - 1];
      assert init[..i] == doms[..i] && init[i] == doms[i];
      AbortStops(init, i);
    }
  }
}
