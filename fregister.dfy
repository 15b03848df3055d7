/** The FREGISTER command handler (cs_cmd_fregister): an ordered precondition gate, channel
    acquisition by joining, a can-register veto, the commit of the registration record, and
    post-commit reconciliation (leaving a channel joined only for the registration, and at
    most one owner/protect promotion of the caller).

    `Run` states, as a function of the services state before the call, the state after it
    and the outcome; `Services.FRegister` is the step-by-step handler, proved to agree with
    `Run`. The properties of `Run` are proved in module FRegisterProperties. */
module FRegister {
  import opened ChanServ
  import Decimal

  /** The part of the services state the command reads and writes: the registration store
      (mychan_find / mychan_add), the live channels (channel_find / join / part / member
      status) and the requests sent to the network so far. */
  datatype State = State(mychans: map<string, MyChan>, channels: map<string, Channel>, events: seq<Event>)

  /** What the command's collaborators answer during one invocation: the current time, the
      channel `channel_find` returns after a join (None: the join did not create it), whether
      a can-register hook refused (`approved != 0`), and the caller's access flags as
      computed after the commit (chanacs_source_flags). */
  datatype Oracle = Oracle(now: int, joinResult: Option<Channel>, vetoed: bool, sourceFlags: set<AccessFlag>)

  /** Result of one invocation: the state after it and its outcome. */
  datatype Step = Step(state: State, outcome: Outcome)

  /** The one owner/protect decision of the reconciliation. */
  datatype Promotion = NoPromotion | PromoteOwner | PromoteProtect

  /** The only channel prefix the command accepts: the name must start with '#'. */
  predicate HasChannelPrefix(name: string) {
    |name| > 0 && name[0] == '#'
  }

  /** Whether the "already registered" reply names the founders. */
  predicate FoundersShown(cfg: Config, mc: MyChan) {
    !cfg.useChannelPrivate || Private !in mc.flags
  }

  /** The precondition gate: the outcome of the first check that fails, or None when the
      command may go ahead. The checks run in the handler's order (cs_fregister.c:28-66). */
  function Gate(src: Source, parv0: Option<string>, mychans: map<string, MyChan>, cfg: Config): (r: Option<Outcome>)
    ensures r.None? <==>
      !src.fantasy && parv0.Some? && HasChannelPrefix(parv0.value) &&
      src.account.Some? && !src.account.value.waitAuth && parv0.value !in mychans
    ensures r.Some? ==> r.value == Ignored || r.value.Failed?
  {
    if src.fantasy then Some(Ignored)
    else if parv0.None? then Some(Failed(NeedMoreParams))
    else if !HasChannelPrefix(parv0.value) then Some(Failed(BadParams))
    else if src.account.None? then Some(Failed(NoPrivs))
    else if src.account.value.waitAuth then Some(Failed(NotVerified))
    else if parv0.value in mychans then Some(Failed(AlreadyExists(FoundersShown(cfg, mychans[parv0.value]))))
    else None
  }

  /** The mode-unlock set: the registration freezes "no limit" and "no key" when the live
      channel has neither. */
  function MlockOff(c: Channel): (r: set<ChannelMode>)
    ensures Limit in r <==> c.limit == 0
    ensures Key in r <==> c.key.None?
    ensures r <= {Limit, Key}
  {
    (if c.limit == 0 then {Limit} else {}) + (if c.key.None? then {Key} else {})
  }

  predicate TemplatesConfigured(cfg: Config) {
    cfg.deftemplates.Some? && cfg.deftemplates.value != ""
  }

  /** The metadata the commit attaches: the channel's creation time when positive, then
      the default templates when configured. */
  function CommitMetadata(c: Channel, cfg: Config): (md: map<string, string>)
    ensures ChannelTsKey in md <==> c.ts > 0
    ensures c.ts > 0 ==> md[ChannelTsKey] == Decimal.Render(c.ts)
    ensures TemplatesKey in md <==> TemplatesConfigured(cfg)
    ensures TemplatesConfigured(cfg) ==> md[TemplatesKey] == cfg.deftemplates.value
    ensures md.Keys <= {ChannelTsKey, TemplatesKey}
  {
    var m := if c.ts > 0 then map[ChannelTsKey := Decimal.Render(c.ts)] else map[];
    if TemplatesConfigured(cfg) then m[TemplatesKey := cfg.deftemplates.value] else m
  }

  /** The registration record the commit leaves in the store for channel `name`, taken
      from live channel `c` by account `acct` at time `now`. */
  function Committed(name: string, c: Channel, acct: Account, cfg: Config, now: int): (mc: MyChan)
    ensures mc.name == name && mc.registered == now && mc.used == now
    ensures NoExt in mc.mlockOn && Topic in mc.mlockOn && cfg.defcflags <= mc.flags
    ensures |mc.access| == 1 && mc.access[0].entity == acct.entity && mc.access[0].setter == acct.entity
    ensures mc.access[0].level == cfg.founderLevel && mc.access[0].tmodified == now
  {
    MyChan(name, now, now, {NoExt, Topic}, MlockOff(c), cfg.defcflags,
           [ChanAcs(acct.entity, cfg.founderLevel, now, acct.entity)], CommitMetadata(c, cfg))
  }

  /** join(): the request is sent; the channel exists afterwards iff the network created it. */
  function JoinState(st: State, name: string, nick: string, result: Option<Channel>): (r: State)
    ensures r.mychans == st.mychans && r.events == st.events + [JoinEvent(name, nick)]
    ensures name in r.channels <==> name in st.channels || result.Some?
    ensures forall n :: n != name && n in st.channels ==> n in r.channels && r.channels[n] == st.channels[n]
    ensures forall n :: n != name && n in r.channels ==> n in st.channels
  {
    st.(channels := if result.Some? then st.channels[name := result.value] else st.channels,
        events := st.events + [JoinEvent(name, nick)])
  }

  /** part(): the request is sent and `nick` leaves; a channel left empty disappears. */
  function PartState(st: State, name: string, nick: string): (r: State)
    ensures r.mychans == st.mychans && r.events == st.events + [PartEvent(name, nick)]
    ensures name in r.channels ==> name in st.channels && nick !in r.channels[name].members
    ensures name in st.channels && name !in r.channels ==> st.channels[name].members.Keys <= {nick}
    ensures forall n :: n != name && n in st.channels ==> n in r.channels && r.channels[n] == st.channels[n]
    ensures forall n :: n != name && n in r.channels ==> n in st.channels
  {
    var channels :=
      if name !in st.channels then st.channels
      else
        var c := st.channels[name];
        var members := c.members - {nick};
        assert forall k :: k in c.members && k != nick ==> k in members;
        if members == map[] then st.channels - {name} else st.channels[name := c.(members := members)];
    st.(channels := channels, events := st.events + [PartEvent(name, nick)])
  }

  /** The owner-before-protect decision, from the ircd's capabilities, the caller's access
      flags and the caller's current status in the channel. */
  function Promote(cfg: Config, fl: set<AccessFlag>, modes: set<Status>): (p: Promotion)
    ensures p != NoPromotion ==> AutoOp in fl
    ensures p == PromoteOwner ==> cfg.usesOwner && UseOwner in fl && Owner !in modes
    ensures p == PromoteProtect ==> cfg.usesProtect && UseProtect in fl && Protect !in modes
  {
    if cfg.usesOwner && UseOwner in fl && AutoOp in fl && Owner !in modes then PromoteOwner
    else if cfg.usesProtect && UseProtect in fl && AutoOp in fl && Protect !in modes then PromoteProtect
    else NoPromotion
  }

  /** The status bits after a promotion. */
  function Promoted(modes: set<Status>, p: Promotion): set<Status> {
    match p
    case NoPromotion => modes
    case PromoteOwner => modes + {Owner}
    case PromoteProtect => modes + {Protect}
  }

  /** Whether the caller is a member of live channel `name` (chanuser_find finds it). */
  predicate CallerInChannel(st: State, name: string, src: Source) {
    src.client.Some? && name in st.channels && src.client.value in st.channels[name].members
  }

  /** Post-commit reconciliation: promote the caller, when present, as Promote decides. */
  function Reconcile(st: State, name: string, src: Source, cfg: Config, fl: set<AccessFlag>): (r: State)
    ensures r.mychans == st.mychans && r.channels.Keys == st.channels.Keys
    ensures !CallerInChannel(st, name, src) ==> r == st
    ensures |st.events| <= |r.events| <= |st.events| + 1 && r.events[..|st.events|] == st.events
    ensures forall n :: n != name && n in st.channels ==> r.channels[n] == st.channels[n]
  {
    if !CallerInChannel(st, name, src) then st
    else
      var nick := src.client.value;
      var c := st.channels[name];
      var p := Promote(cfg, fl, c.members[nick]);
      if p == NoPromotion then st
      else
        var mode := if p == PromoteOwner then cfg.ownerMode else cfg.protectMode;
        st.(channels := st.channels[name := c.(members := c.members[nick := Promoted(c.members[nick], p)])],
            events := st.events + [ModeAdd(src.serviceNick, name, mode, nick)])
  }

  /** One invocation of FREGISTER with first parameter `parv0`, from state `st`. */
  function Run(st: State, src: Source, parv0: Option<string>, cfg: Config, o: Oracle): (r: Step)
    ensures forall n :: n in st.mychans ==> n in r.state.mychans && r.state.mychans[n] == st.mychans[n]
    ensures forall n :: n in r.state.mychans && n !in st.mychans ==>
      r.outcome == Registered && parv0 == Some(n)
    ensures |st.events| <= |r.state.events| && r.state.events[..|st.events|] == st.events
  {
    match Gate(src, parv0, st.mychans, cfg)
    case Some(early) => Step(st, early)
    case None =>
      var name := parv0.value;
      var joined := name !in st.channels;
      var acquired := if joined then JoinState(st, name, cfg.chanservNick, o.joinResult) else st;
      if name !in acquired.channels then Step(acquired, Failed(InternalError))
      else if o.vetoed then Step(acquired, Vetoed)
      else
        var mc := Committed(name, acquired.channels[name], src.account.value, cfg, o.now);
        var committed := acquired.(mychans := acquired.mychans[name := mc]);
        var left := if joined && cfg.leaveChans then PartState(committed, name, cfg.chanservNick) else committed;
        Step(Reconcile(left, name, src, cfg, o.sourceFlags), Registered)
  }

  /** Every registration is stored under its own name. */
  predicate KeyedByName(mychans: map<string, MyChan>) {
    forall n :: n in mychans ==> mychans[n].name == n
  }

  /** The services state, updated in place by the command handler. */
  class Services {
    var mychans: map<string, MyChan>
    var channels: map<string, Channel>
    var events: seq<Event>

    /** Every registration is stored under its own name. Join, Part and PromoteCaller
        leave the store as it was; Commit and the handler keep this. */
    ghost predicate Valid()
      reads this
    {
      KeyedByName(mychans)
    }

    function Snapshot(): State
      reads this
    {
      State(mychans, channels, events)
    }

    constructor (mychans: map<string, MyChan>, channels: map<string, Channel>)
      requires KeyedByName(mychans)
      ensures Valid()
      ensures Snapshot() == State(mychans, channels, [])
    {
      this.mychans := mychans;
      this.channels := channels;
      this.events := [];
    }

    /** join(name, nick): `result` is the channel the network then has under `name`. */
    method Join(name: string, nick: string, result: Option<Channel>)
      modifies this
      ensures Snapshot() == JoinState(old(Snapshot()), name, nick, result)
    {
      if result.Some? {
        channels := channels[name := result.value];
      }
      events := events + [JoinEvent(name, nick)];
    }

    /** part(name, nick). */
    method Part(name: string, nick: string)
      modifies this
      ensures Snapshot() == PartState(old(Snapshot()), name, nick)
    {
      if name in channels {
        var c := channels[name];
        var members := c.members - {nick};
        if members == map[] {
          channels := channels - {name};
        } else {
          channels := channels[name := c.(members := members)];
        }
      }
      events := events + [PartEvent(name, nick)];
    }

    /** mychan_add, then the fields of the new record set one by one, chanacs_add of the
        founder entry and the two optional metadata_add calls. */
    method Commit(name: string, c: Channel, smu: Account, cfg: Config, now: int)
      requires Valid()
      modifies this
      ensures Valid()
      ensures Snapshot() == old(Snapshot()).(mychans := old(mychans)[name := Committed(name, c, smu, cfg, now)])
    {
      var mc := MyChan(name, 0, 0, {}, {}, {}, [], map[]);
      mc := mc.(registered := now, used := now);
      mc := mc.(mlockOn := mc.mlockOn + {NoExt, Topic});
      if c.limit == 0 {
        mc := mc.(mlockOff := mc.mlockOff + {Limit});
      }
      if c.key.None? {
        mc := mc.(mlockOff := mc.mlockOff + {Key});
      }
      mc := mc.(flags := mc.flags + cfg.defcflags);
      mc := mc.(access := mc.access + [ChanAcs(smu.entity, cfg.founderLevel, now, smu.entity)]);
      if c.ts > 0 {
        mc := mc.(metadata := mc.metadata[ChannelTsKey := Decimal.Render(c.ts)]);
      }
      if cfg.deftemplates.Some? && cfg.deftemplates.value != "" {
        mc := mc.(metadata := mc.metadata[TemplatesKey := cfg.deftemplates.value]);
      }
      assert mc == Committed(name, c, smu, cfg, now);
      mychans := mychans[name := mc];
    }

    /** chanuser_find, then the owner branch before the protect branch: the mode request
        is sent and the status bit set. */
    method PromoteCaller(name: string, src: Source, cfg: Config, fl: set<AccessFlag>)
      modifies this
      ensures Snapshot() == Reconcile(old(Snapshot()), name, src, cfg, fl)
    {
      if src.client.Some? && name in channels && src.client.value in channels[name].members {
        var nick := src.client.value;
        var cu := channels[name];
        var modes := cu.members[nick];
        if cfg.usesOwner && UseOwner in fl && AutoOp in fl && Owner !in modes {
          events := events + [ModeAdd(src.serviceNick, name, cfg.ownerMode, nick)];
          channels := channels[name := cu.(members := cu.members[nick := modes + {Owner}])];
        } else if cfg.usesProtect && UseProtect in fl && AutoOp in fl && Protect !in modes {
          events := events + [ModeAdd(src.serviceNick, name, cfg.protectMode, nick)];
          channels := channels[name := cu.(members := cu.members[nick := modes + {Protect}])];
        }
      }
    }

    /** cs_cmd_fregister: gate, acquire, veto, commit, reconcile, with early returns. */
    method FRegister(src: Source, parv0: Option<string>, cfg: Config, o: Oracle) returns (out: Outcome)
      requires Valid()
      modifies this
      ensures Valid()
      ensures Step(Snapshot(), out) == Run(old(Snapshot()), src, parv0, cfg, o)
    {
      if src.fantasy {
        return Ignored;
      }
      if parv0.None? {
        return Failed(NeedMoreParams);
      }
      var name := parv0.value;
      if !HasChannelPrefix(name) {
        return Failed(BadParams);
      }
      if src.account.None? {
        return Failed(NoPrivs);
      }
      var smu := src.account.value;
      if smu.waitAuth {
        return Failed(NotVerified);
      }
      if name in mychans {
        var existing := mychans[name];
        if !cfg.useChannelPrivate || Private !in existing.flags {
          return Failed(AlreadyExists(true));
        } else {
          return Failed(AlreadyExists(false));
        }
      }

      var joinedChannel := false;
      if name !in channels {
        Join(name, cfg.chanservNick, o.joinResult);
        if name !in channels {
          return Failed(InternalError);
        }
        joinedChannel := true;
      }
      var c := channels[name];

      if o.vetoed {
        return Vetoed;
      }

      Commit(name, c, smu, cfg, o.now);

      if joinedChannel && cfg.leaveChans {
        Part(name, cfg.chanservNick);
      }

      // hook_call_channel_register changes nothing here; its effect on the caller's
      // access reaches the decision through o.sourceFlags.
      PromoteCaller(name, src, cfg, o.sourceFlags);
      return Registered;
    }
  }
}
