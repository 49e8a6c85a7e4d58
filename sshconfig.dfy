/**
 * The host entries `virtctl config-ssh` writes into an ssh client
 * configuration (pkg/virtctl/config_ssh/config_ssh.go): one entry per VM
 * or VMI, reached as "vmi/NAME.NAMESPACE.CONTEXT" through a ProxyCommand
 * running `port-forward`, and marked with an end-of-line comment so that
 * later runs can remove or regenerate exactly their own entries.
 *
 * Reading and writing the file, decoding and printing it, and listing the
 * objects through the cluster client are outside the model; a host entry is
 * a plain record.
 */
module SshConfig {
  import opened Wrappers
  import opened Strings
  import opened Errors
  import opened Seqs

  /** The comment that marks an entry as written by this command. */
  const KubeVirtEOLComment := "Generated by KubeVirt"

  /** The `Kind` of the two object types entries are made for. */
  const VirtualMachineInstanceKind := "VirtualMachineInstance"
  const VirtualMachineKind := "VirtualMachine"

  /** A host's patterns; a host entry of an ssh configuration has at least one. */
  type Patterns = s: seq<string> | |s| >= 1 witness ["*"]

  datatype KV = KV(key: string, value: string)

  /** An ssh_config host entry: its patterns, its settings and its end-of-line comment. */
  datatype Host = Host(eolComment: string, patterns: Patterns, nodes: seq<KV>)

  /** An object listed from the cluster, with the fields an entry is made of. */
  datatype Object = Object(kind: string, name: string, namespace: string)

  /** The context name as it appears in a host pattern: every '@' becomes '_'. */
  function ContextLabel(context: string): (l: string)
    ensures '@' !in l
    ensures '@' !in context ==> l == context
  {
    ReplaceAllRemoves(context, '@', '_');
    ReplaceAll(context, '@', '_')
  }

  /** Host entries this command did not write. */
  predicate Foreign(host: Host)
  {
    host.eolComment != KubeVirtEOLComment
  }

  /** removeHostEntries: every entry but this command's own, in the original order. */
  method RemoveHostEntries(hosts: seq<Host>) returns (cleaned: seq<Host>)
    ensures cleaned == Filter(hosts, Foreign)
  {
    cleaned := [];
    var i := 0;
    while i < |hosts|
      invariant 0 <= i <= |hosts|
      invariant cleaned == Filter(hosts[..i], Foreign)
    {
      assert hosts[..i + 1] == hosts[..i] + [hosts[i]];
      FilterConcat(hosts[..i], [hosts[i]], Foreign);
      if Foreign(hosts[i]) {
        cleaned := cleaned + [hosts[i]];
      }
      i := i + 1;
    }
    assert hosts[..i] == hosts;
  }

  /** What removeHostEntries keeps: exactly the foreign entries. */
  lemma RemoveHostEntriesKeepsForeign(hosts: seq<Host>, h: Host)
    ensures h in Filter(hosts, Foreign) <==> h in hosts && Foreign(h)
  {
    if h in hosts && Foreign(h) {
      FilterKeeps(hosts, Foreign, h);
    }
  }

  /** Removing the entries twice is removing them once. */
  lemma RemoveHostEntriesIdempotent(hosts: seq<Host>)
    ensures Filter(Filter(hosts, Foreign), Foreign) == Filter(hosts, Foreign)
  {
    FilterFilter(hosts, Foreign, Foreign);
  }

  /**
   * matchByNamespaceAndContext: the entry is this command's, its first
   * pattern splits into three parts at the first two dots, the last part
   * is the context's label, and the namespace is "" or the middle part.
   */
  predicate Matches(host: Host, namespace: string, context: string)
  {
    var split := SplitN(host.patterns[0], '.', 3);
    host.eolComment == KubeVirtEOLComment &&
    |split| == 3 &&
    split[2] == ContextLabel(context) &&
    (namespace == "" || split[1] == namespace)
  }

  /** The condition removeHostEntriesForRegenerate keeps an entry by. */
  predicate Unmatched(host: Host, namespace: string, context: string)
  {
    !Matches(host, namespace, context)
  }

  /** removeHostEntriesForRegenerate: every entry but the matched ones, in the original order. */
  method RemoveHostEntriesForRegenerate(hosts: seq<Host>, namespace: string, context: string) returns (cleaned: seq<Host>)
    ensures cleaned == Filter(hosts, h => Unmatched(h, namespace, context))
  {
    ghost var keep := h => Unmatched(h, namespace, context);
    cleaned := [];
    var i := 0;
    while i < |hosts|
      invariant 0 <= i <= |hosts|
      invariant cleaned == Filter(hosts[..i], keep)
    {
      assert hosts[..i + 1] == hosts[..i] + [hosts[i]];
      FilterConcat(hosts[..i], [hosts[i]], keep);
      var toClean := Matches(hosts[i], namespace, context);
      assert Filter([hosts[i]], keep) == if toClean then [] else [hosts[i]];
      if !toClean {
        cleaned := cleaned + [hosts[i]];
      }
      i := i + 1;
    }
    assert hosts[..i] == hosts;
  }

  /** Regenerating never removes an entry this command did not write. */
  lemma RegenerateKeepsForeign(hosts: seq<Host>, namespace: string, context: string, h: Host)
    requires h in hosts && Foreign(h)
    ensures h in Filter(hosts, x => Unmatched(x, namespace, context))
  {
    FilterKeeps(hosts, x => Unmatched(x, namespace, context), h);
  }

  /** Removing all entries after the regeneration's removal is removing all entries. */
  lemma RemoveAfterRegenerate(hosts: seq<Host>, namespace: string, context: string)
    ensures Filter(Filter(hosts, x => Unmatched(x, namespace, context)), Foreign) == Filter(hosts, Foreign)
  {
    FilterFilter(hosts, x => Unmatched(x, namespace, context), Foreign);
  }

  /** The resource name of an object kind, for the kinds entries are made for. */
  function ResourceOf(kind: string): (r: Option<string>)
    ensures r == Some("vmi") <==> kind == VirtualMachineInstanceKind
    ensures r == Some("vm") <==> kind == VirtualMachineKind
    ensures r.None? <==> kind != VirtualMachineInstanceKind && kind != VirtualMachineKind
  {
    if kind == VirtualMachineInstanceKind then Some("vmi")
    else if kind == VirtualMachineKind then Some("vm")
    else None
  }

  /** "RESOURCE/NAME.NAMESPACE", how port-forward names an object. */
  function ObjectPath(resource: string, name: string, namespace: string): string
  {
    resource + "/" + name + "." + namespace
  }

  /** The pattern of an entry: "RESOURCE/NAME.NAMESPACE.CONTEXT-LABEL". */
  function HostPattern(resource: string, name: string, namespace: string, context: string): string
  {
    ObjectPath(resource, name, namespace) + "." + ContextLabel(context)
  }

  /** The entry's ProxyCommand: port-forward in the raw context, with ssh's "%p" for the port. */
  function ProxyCommand(programName: string, context: string, resource: string, name: string, namespace: string): (c: string)
    ensures HasSuffix(c, " %p")
  {
    var c := programName + " port-forward --context " + context + " --stdio " + ObjectPath(resource, name, namespace) + " %p";
    assert c[|c| - 3..] == " %p";
    c
  }

  function UnsupportedKind(kind: string): Error
  {
    Other("unsupported object kind: " + kind)
  }

  function PatternError(pattern: string, e: Error): Error
  {
    Other("failed to create host entry for " + pattern + ": " + Text(e))
  }

  /**
   * generateHostEntry. `newPattern` stands for ssh_config.NewPattern's
   * verdict on a pattern text: None when it accepts it.
   */
  function GenerateHostEntry(programName: string, context: string, obj: Object,
                             newPattern: string -> Option<Error>): (r: Result<Host, Error>)
    ensures ResourceOf(obj.kind).None? ==> r == Failure(UnsupportedKind(obj.kind))
    ensures ResourceOf(obj.kind).Some? ==>
              var pattern := HostPattern(ResourceOf(obj.kind).value, obj.name, obj.namespace, context);
              (newPattern(pattern).Some? ==> r == Failure(PatternError(pattern, newPattern(pattern).value))) &&
              (newPattern(pattern).None? ==>
                 r.Success? && r.value.eolComment == KubeVirtEOLComment && r.value.patterns == [pattern] &&
                 |r.value.nodes| == 1 && r.value.nodes[0].key == "ProxyCommand" &&
                 r.value.nodes[0].value ==
                   ProxyCommand(programName, context, ResourceOf(obj.kind).value, obj.name, obj.namespace))
  {
    match ResourceOf(obj.kind)
    case None => Failure(UnsupportedKind(obj.kind))
    case Some(resource) =>
      var pattern := HostPattern(resource, obj.name, obj.namespace, context);
      match newPattern(pattern)
      case Some(e) => Failure(PatternError(pattern, e))
      case None =>
        Success(Host(KubeVirtEOLComment, [pattern],
                     [KV("ProxyCommand", ProxyCommand(programName, context, resource, obj.name, obj.namespace))]))
  }

  /** Whether the entries of `objects[..k]` are all generated. */
  predicate GeneratedUpTo(programName: string, context: string, objects: seq<Object>,
                          newPattern: string -> Option<Error>, k: nat)
    requires k <= |objects|
  {
    forall j :: 0 <= j < k ==> GenerateHostEntry(programName, context, objects[j], newPattern).Success?
  }

  /** generateHostEntries: one entry per object in order, or the error of the first object that fails. */
  method GenerateHostEntries(programName: string, context: string, objects: seq<Object>,
                             newPattern: string -> Option<Error>) returns (r: Result<seq<Host>, Error>)
    ensures r.Success? <==> GeneratedUpTo(programName, context, objects, newPattern, |objects|)
    ensures r.Success? ==>
              |r.value| == |objects| &&
              forall j :: 0 <= j < |objects| ==> r.value[j] == GenerateHostEntry(programName, context, objects[j], newPattern).value
    ensures r.Failure? ==>
              exists k :: 0 <= k < |objects| && GeneratedUpTo(programName, context, objects, newPattern, k) &&
                          GenerateHostEntry(programName, context, objects[k], newPattern) == Failure(r.error)
  {
    var hosts: seq<Host> := [];
    var i := 0;
    while i < |objects|
      invariant 0 <= i <= |objects|
      invariant GeneratedUpTo(programName, context, objects, newPattern, i)
      invariant |hosts| == i
      invariant forall j :: 0 <= j < i ==> hosts[j] == GenerateHostEntry(programName, context, objects[j], newPattern).value
    {
      var host := GenerateHostEntry(programName, context, objects[i], newPattern);
      if host.Failure? {
        return Failure(host.error);
      }
      hosts := hosts + [host.value];
      i := i + 1;
    }
    return Success(hosts);
  }

  /** The three parts SplitN finds in a generated pattern, when the name and namespace have no dot. */
  lemma HostPatternParts(resource: string, name: string, namespace: string, context: string)
    requires '.' !in resource && '.' !in name && '.' !in namespace
    ensures SplitN(HostPattern(resource, name, namespace, context), '.', 3) ==
              [resource + "/" + name, namespace, ContextLabel(context)]
  {
    var head := resource + "/" + name;
    var ctxLabel := ContextLabel(context);
    assert '.' !in head by {
      assert forall i :: 0 <= i < |head| ==> head[i] in resource || head[i] == '/' || head[i] in name;
    }
    assert HostPattern(resource, name, namespace, context) == head + ['.'] + (namespace + ['.'] + ctxLabel);
    SplitNConcat(head, namespace + ['.'] + ctxLabel, '.', 2);
    SplitNConcat(namespace, ctxLabel, '.', 1);
  }

  /**
   * A generated entry is matched by its own namespace or by "" with any
   * context of the same label, and by nothing else, when the name and the
   * namespace have no dot.
   */
  lemma GeneratedEntryMatches(programName: string, context: string, obj: Object,
                              newPattern: string -> Option<Error>, namespace: string, otherContext: string)
    requires GenerateHostEntry(programName, context, obj, newPattern).Success?
    requires '.' !in obj.name && '.' !in obj.namespace
    ensures Matches(GenerateHostEntry(programName, context, obj, newPattern).value, namespace, otherContext) <==>
              ContextLabel(otherContext) == ContextLabel(context) && (namespace == "" || namespace == obj.namespace)
  {
    var resource := ResourceOf(obj.kind).value;
    assert '.' !in resource;
    HostPatternParts(resource, obj.name, obj.namespace, context);
  }

  /** In particular, regenerating in the entry's own namespace, or in all namespaces, removes it. */
  lemma RegenerateRemovesGenerated(programName: string, context: string, obj: Object,
                                   newPattern: string -> Option<Error>)
    requires GenerateHostEntry(programName, context, obj, newPattern).Success?
    requires '.' !in obj.name && '.' !in obj.namespace
    ensures Matches(GenerateHostEntry(programName, context, obj, newPattern).value, obj.namespace, context)
    ensures Matches(GenerateHostEntry(programName, context, obj, newPattern).value, "", context)
  {
    GeneratedEntryMatches(programName, context, obj, newPattern, obj.namespace, context);
    GeneratedEntryMatches(programName, context, obj, newPattern, "", context);
  }

  /**
   * An object name with a dot moves the namespace out of the middle part: the
   * first two dots of the pattern are the name's and the one after it, so the
   * last part is the namespace followed by the context's label.
   */
  lemma DottedNamePatternParts(resource: string, x: string, y: string, namespace: string, context: string)
    requires '.' !in resource && '.' !in x && '.' !in y
    ensures SplitN(HostPattern(resource, x + "." + y, namespace, context), '.', 3) ==
              [resource + "/" + x, y, namespace + "." + ContextLabel(context)]
  {
    var head := resource + "/" + x;
    var tail := namespace + "." + ContextLabel(context);
    assert '.' !in head by {
      assert forall i :: 0 <= i < |head| ==> head[i] in resource || head[i] == '/' || head[i] in x;
    }
    assert HostPattern(resource, x + "." + y, namespace, context) == head + ['.'] + (y + ['.'] + tail);
    SplitNConcat(head, y + ['.'] + tail, '.', 2);
    SplitNConcat(y, tail, '.', 1);
  }

  /**
   * So an entry generated for an object whose name has one dot is matched in
   * its own context by no namespace at all, "" included: regenerating there
   * keeps the old entry.
   */
  lemma DottedNameEntryKept(programName: string, context: string, obj: Object,
                            newPattern: string -> Option<Error>, x: string, y: string, namespace: string)
    requires GenerateHostEntry(programName, context, obj, newPattern).Success?
    requires obj.name == x + "." + y && '.' !in x && '.' !in y
    ensures !Matches(GenerateHostEntry(programName, context, obj, newPattern).value, namespace, context)
  {
    var resource := ResourceOf(obj.kind).value;
    assert '.' !in resource;
    DottedNamePatternParts(resource, x, y, obj.namespace, context);
    assert |obj.namespace + "." + ContextLabel(context)| > |ContextLabel(context)|;
  }
}
