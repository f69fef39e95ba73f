/**
  The action registry (action_registry.py) and the authority policy (authority_policy.py):
  which mode an action runs in, and why it was downgraded.
*/
module AuthorityPolicy {
  import opened Wrappers

  datatype Mode = AskPermission | TakeResolvingAction | Autonomous

  // A registry entry, as far as authority and validation need it. The source validates that the
  // first field of the argument schema is given.
  datatype ActionSpec = ActionSpec(
    id: string,
    destructive: bool,
    external: bool,
    rateLimit: Option<int>,
    primaryArg: string)

  const GIT_COMMIT := "git-commit-and-push"

  const REGISTRY: map<string, ActionSpec> := map[
    "file-update" := ActionSpec("file-update", false, false, Some(60), "path"),
    "mcp-push" := ActionSpec("mcp-push", false, true, Some(20), "mcp_server"),
    "notification" := ActionSpec("notification", false, true, Some(120), "channel"),
    "re-run-plugin" := ActionSpec("re-run-plugin", false, false, Some(60), "plugin_name"),
    "trigger-downstream" := ActionSpec("trigger-downstream", false, false, Some(60), "cascade_node_id"),
    GIT_COMMIT := ActionSpec(GIT_COMMIT, false, true, Some(10), "repo_path")
  ]

  // An override whose mode is missing or unknown has mode None.
  datatype Override = Override(plugin: string, action: string, mode: Option<Mode>)

  datatype Policy = Policy(
    defaultMode: Mode,
    approvalForDestructive: bool,
    approvalForExternal: bool,
    rateLimits: map<string, Option<int>>,
    overrides: seq<Override>,
    autonomousOptIns: set<string>)

  datatype Resolution = Resolution(mode: Mode, rateLimit: Option<int>, downgraded: Option<string>)

  // ---------------------------------------------------------------------------
  // Specification.
  // ---------------------------------------------------------------------------

  const DESTRUCTIVE := "destructive action requires approval"
  const EXTERNAL := "external side-effect requires approval"
  const NOT_OPTED_IN := "plugin not in autonomous_opt_ins"

  predicate Matches(o: Override, plugin: string, action: string) {
    o.plugin == plugin && o.action == action
  }

  // The mode of the first override for this plugin and action; None if that one has no valid mode.
  function Explicit(overrides: seq<Override>, plugin: string, action: string): Option<Mode> {
    if overrides == [] then None
    else if Matches(overrides[0], plugin, action) then overrides[0].mode
    else Explicit(overrides[1..], plugin, action)
  }

  predicate Guarded(p: Policy, spec: ActionSpec) {
    (spec.destructive && p.approvalForDestructive) || (spec.external && p.approvalForExternal)
  }

  // The mode before any downgrade: an explicit one, or the policy's default.
  function Chosen(p: Policy, plugin: string, spec: ActionSpec): Mode {
    match Explicit(p.overrides, plugin, spec.id)
    case Some(m) => m
    case None => p.defaultMode
  }

  // Guards do not apply on top of an explicit override; the opt-in requirement always does.
  predicate Downgraded(p: Policy, plugin: string, spec: ActionSpec) {
    && Chosen(p, plugin, spec) != AskPermission
    && (|| (Explicit(p.overrides, plugin, spec.id) == None && Guarded(p, spec))
        || (Chosen(p, plugin, spec) == Autonomous && plugin !in p.autonomousOptIns))
  }

  function EffectiveMode(p: Policy, plugin: string, spec: ActionSpec): Mode {
    if Downgraded(p, plugin, spec) then AskPermission else Chosen(p, plugin, spec)
  }

  // The first guard that tripped is the one reported, the missing opt-in last.
  function WhyDowngraded(p: Policy, plugin: string, spec: ActionSpec): Option<string> {
    var guards := Explicit(p.overrides, plugin, spec.id) == None;
    if !Downgraded(p, plugin, spec) then None
    else if guards && spec.destructive && p.approvalForDestructive then Some(DESTRUCTIVE)
    else if guards && spec.external && p.approvalForExternal then Some(EXTERNAL)
    else Some(NOT_OPTED_IN)
  }

  function EffectiveLimit(p: Policy, spec: ActionSpec): Option<int> {
    if spec.id in p.rateLimits then p.rateLimits[spec.id] else spec.rateLimit
  }

  /**
    When an action runs in which mode. Autonomy takes an opt-in, whatever chose it; resolving alone
    an override or, if none has a say, the policy's default and no tripped guard; anything else asks.
  */
  lemma ModeIsAuthorised(p: Policy, plugin: string, spec: ActionSpec)
    ensures var m, e := EffectiveMode(p, plugin, spec), Explicit(p.overrides, plugin, spec.id);
            var tripped := (spec.destructive && p.approvalForDestructive) || (spec.external && p.approvalForExternal);
            && (m == Autonomous <==>
                  && plugin in p.autonomousOptIns
                  && (e == Some(Autonomous) || (e == None && p.defaultMode == Autonomous && !tripped)))
            && (m == TakeResolvingAction <==>
                  e == Some(TakeResolvingAction) || (e == None && p.defaultMode == TakeResolvingAction && !tripped))
            && (m == AskPermission <==>
                  || e == Some(AskPermission)
                  || (e == None && (p.defaultMode == AskPermission || tripped))
                  || (plugin !in p.autonomousOptIns &&
                      (e == Some(Autonomous) || (e == None && p.defaultMode == Autonomous))))
  {
  }

  // A reason is reported exactly when the mode is not the one that an override or the default asked
  // for, and it names the first cause in the order destructive, external, no opt-in.
  lemma ReasonIsFirstCause(p: Policy, plugin: string, spec: ActionSpec)
    ensures var m, e := EffectiveMode(p, plugin, spec), Explicit(p.overrides, plugin, spec.id);
            var asked := if e.Some? then e.value else p.defaultMode;
            var why := WhyDowngraded(p, plugin, spec);
            var open := e == None && p.defaultMode != AskPermission;
            && (why == None <==> m == asked)
            && (why == Some(DESTRUCTIVE) <==> open && spec.destructive && p.approvalForDestructive)
            && (why == Some(EXTERNAL) <==>
                  open && !(spec.destructive && p.approvalForDestructive) && spec.external && p.approvalForExternal)
            && (why.Some? && why != Some(DESTRUCTIVE) && why != Some(EXTERNAL) ==>
                  why == Some(NOT_OPTED_IN) && asked == Autonomous && plugin !in p.autonomousOptIns)
  {
    assert DESTRUCTIVE[0] != EXTERNAL[0] && DESTRUCTIVE[0] != NOT_OPTED_IN[0] && EXTERNAL[0] != NOT_OPTED_IN[0];
  }

  // Only the first override for a plugin and action has any effect.
  lemma {:induction false} FirstOverrideDecides(before: seq<Override>, o: Override, after: seq<Override>,
                                                plugin: string, action: string)
    requires forall x :: x in before ==> x.plugin != plugin || x.action != action
    requires o.plugin == plugin && o.action == action
    ensures Explicit(before + [o] + after, plugin, action) == o.mode
  {
    var all := before + [o] + after;
    if before != [] {
      assert before[0] in before;
      assert all[1..] == before[1..] + [o] + after;
      FirstOverrideDecides(before[1..], o, after, plugin, action);
    }
  }

  // Without one for them there is no explicit mode.
  lemma {:induction false} NoOverrideDecides(overrides: seq<Override>, plugin: string, action: string)
    requires forall x :: x in overrides ==> x.plugin != plugin || x.action != action
    ensures Explicit(overrides, plugin, action) == None
  {
    if overrides != [] {
      assert overrides[0] in overrides;
      NoOverrideDecides(overrides[1..], plugin, action);
    }
  }

  // ---------------------------------------------------------------------------
  // The resolver.
  // ---------------------------------------------------------------------------

  method Resolve(p: Policy, plugin: string, spec: ActionSpec) returns (r: Resolution)
    ensures r.mode == EffectiveMode(p, plugin, spec)
    ensures r.rateLimit == EffectiveLimit(p, spec)
    ensures spec.id in p.rateLimits ==> r.rateLimit == p.rateLimits[spec.id]
    ensures spec.id !in p.rateLimits ==> r.rateLimit == spec.rateLimit
    ensures r.downgraded == WhyDowngraded(p, plugin, spec)
  {
    var mode := p.defaultMode;
    var reason: Option<string> := None;
    var explicitOverride := false;
    var i := 0;
    while i < |p.overrides|
      invariant i <= |p.overrides|
      invariant mode == p.defaultMode && !explicitOverride
      invariant Explicit(p.overrides[i..], plugin, spec.id) == Explicit(p.overrides, plugin, spec.id)
    {
      if Matches(p.overrides[i], plugin, spec.id) {
        if p.overrides[i].mode.Some? {
          mode := p.overrides[i].mode.value;
          explicitOverride := true;
        }
        break;
      }
      i := i + 1;
    }
    assert explicitOverride == Explicit(p.overrides, plugin, spec.id).Some? && mode == Chosen(p, plugin, spec);
    if !explicitOverride {
      if spec.destructive && p.approvalForDestructive && mode != AskPermission {
        reason := Some(DESTRUCTIVE);
        mode := AskPermission;
      }
      if spec.external && p.approvalForExternal && mode != AskPermission {
        reason := if reason.Some? then reason else Some(EXTERNAL);
        mode := AskPermission;
      }
    }
    if mode == Autonomous && plugin !in p.autonomousOptIns {
      reason := if reason.Some? then reason else Some(NOT_OPTED_IN);
      mode := AskPermission;
    }
    r := Resolution(mode, if spec.id in p.rateLimits then p.rateLimits[spec.id] else spec.rateLimit, reason);
  }
}
