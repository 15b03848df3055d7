/** What one FREGISTER invocation promises, stated over FRegister.Run for every state,
    caller, parameter, configuration and collaborator answer. */
module FRegisterProperties {
  import opened ChanServ
  import opened FRegister
  import Decimal

  /** The network requests an invocation sent, in order. */
  function NewEvents(st: State, r: Step): seq<Event> {
    if |st.events| <= |r.state.events| then r.state.events[|st.events|..] else []
  }

  predicate HasJoin(evs: seq<Event>) {
    exists i :: 0 <= i < |evs| && evs[i].JoinEvent?
  }

  predicate HasPart(evs: seq<Event>) {
    exists i :: 0 <= i < |evs| && evs[i].PartEvent?
  }

  predicate HasMode(evs: seq<Event>) {
    exists i :: 0 <= i < |evs| && evs[i].ModeAdd?
  }

  /** The live channel the command registers: the one found, or the one the join made. */
  function Acquired(st: State, name: string, o: Oracle): Channel
    requires name in st.channels || o.joinResult.Some?
  {
    if name in st.channels then st.channels[name] else o.joinResult.value
  }

  // ---------------------------------------------------------------- the gate

  /** A command typed in a channel is ignored: no reply and nothing changes. */
  lemma FantasyIsIgnored(st: State, src: Source, parv0: Option<string>, cfg: Config, o: Oracle)
    requires src.fantasy
    ensures Run(st, src, parv0, cfg, o) == Step(st, Ignored)
  {
  }

  /** A missing name fails with needmoreparams, a name not starting with '#' with
      badparams; neither changes anything. */
  lemma NameIsChecked(st: State, src: Source, parv0: Option<string>, cfg: Config, o: Oracle)
    requires !src.fantasy
    ensures parv0.None? ==> Run(st, src, parv0, cfg, o) == Step(st, Failed(NeedMoreParams))
    ensures parv0.Some? && !HasChannelPrefix(parv0.value) ==>
      Run(st, src, parv0, cfg, o) == Step(st, Failed(BadParams))
  {
  }

  /** The other channel prefixes of section 2.1 of RFC 2811 ('&', '+', '!') are refused. */
  lemma OnlyHashPrefixAccepted(st: State, src: Source, name: string, cfg: Config, o: Oracle)
    requires !src.fantasy && |name| > 0 && (name[0] == '&' || name[0] == '+' || name[0] == '!')
    ensures Run(st, src, Some(name), cfg, o) == Step(st, Failed(BadParams))
  {
  }

  /** A caller who is not logged in gets noprivs whether or not the name is registered; the
      verification check comes only after it. */
  lemma LoginBeforeVerification(st: State, src: Source, name: string, cfg: Config, o: Oracle)
    requires !src.fantasy && HasChannelPrefix(name)
    ensures src.account.None? ==> Run(st, src, Some(name), cfg, o) == Step(st, Failed(NoPrivs))
    ensures src.account.Some? && src.account.value.waitAuth ==>
      Run(st, src, Some(name), cfg, o) == Step(st, Failed(NotVerified))
  {
  }

  /** A registered name fails with alreadyexists and leaves the record, the live channels
      and the network untouched; the founders are named unless privacy hides them. */
  lemma AlreadyRegistered(st: State, src: Source, name: string, cfg: Config, o: Oracle)
    requires !src.fantasy && HasChannelPrefix(name)
    requires src.account.Some? && !src.account.value.waitAuth
    requires name in st.mychans
    ensures var r := Run(st, src, Some(name), cfg, o);
      r.state == st && r.outcome.Failed? && r.outcome.fault.AlreadyExists? &&
      (r.outcome.fault.foundersShown <==> !cfg.useChannelPrivate || Private !in st.mychans[name].flags)
  {
  }

  /** Every gate rejection leaves the whole state as it was. */
  lemma GateRejectionChangesNothing(st: State, src: Source, parv0: Option<string>, cfg: Config, o: Oracle)
    ensures var r := Run(st, src, parv0, cfg, o);
      r.outcome == Ignored || (r.outcome.Failed? && r.outcome.fault != InternalError) ==> r.state == st
  {
  }

  // ---------------------------------------------------------------- acquisition and veto

  /** Only requests are ever added to the network trace, never removed. */
  lemma EventsOnlyAppended(st: State, src: Source, parv0: Option<string>, cfg: Config, o: Oracle)
    ensures var r := Run(st, src, parv0, cfg, o);
      r.state.events == st.events + NewEvents(st, r)
  {
  }

  /** The service joins exactly when the gate passed and the channel was not live. */
  lemma JoinOnlyWhenAbsent(st: State, src: Source, parv0: Option<string>, cfg: Config, o: Oracle)
    ensures HasJoin(NewEvents(st, Run(st, src, parv0, cfg, o))) <==>
      Gate(src, parv0, st.mychans, cfg).None? && parv0.value !in st.channels
  {
    var r := Run(st, src, parv0, cfg, o);
    var evs := NewEvents(st, r);
    if Gate(src, parv0, st.mychans, cfg).None? && parv0.value !in st.channels {
      assert evs[0].JoinEvent?;
    }
  }

  /** The command fails with internalerror exactly when the gate passed, the channel was not
      live and the join did not create it; then only the join request was sent. */
  lemma InternalErrorIffJoinFails(st: State, src: Source, parv0: Option<string>, cfg: Config, o: Oracle)
    ensures var r := Run(st, src, parv0, cfg, o);
      r.outcome == Failed(InternalError) <==>
        Gate(src, parv0, st.mychans, cfg).None? && parv0.value !in st.channels && o.joinResult.None?
    ensures var r := Run(st, src, parv0, cfg, o);
      r.outcome == Failed(InternalError) ==>
        r.state == st.(events := st.events + [JoinEvent(parv0.value, cfg.chanservNick)])
  {
  }

  /** A refusing can-register hook stops the command silently: no registration and no part,
      so a channel joined for the registration keeps the service in it. */
  lemma VetoIsSilentWithoutPart(st: State, src: Source, parv0: Option<string>, cfg: Config, o: Oracle)
    requires Gate(src, parv0, st.mychans, cfg).None?
    requires parv0.value in st.channels || o.joinResult.Some?
    requires o.vetoed
    ensures var r := Run(st, src, parv0, cfg, o);
      r.outcome == Vetoed && r.state.mychans == st.mychans &&
      !HasPart(NewEvents(st, r)) && r.state.channels[parv0.value] == Acquired(st, parv0.value, o)
  {
  }

  /** Nothing is registered unless the command ends in success. */
  lemma RegistrationOnlyOnSuccess(st: State, src: Source, parv0: Option<string>, cfg: Config, o: Oracle)
    ensures var r := Run(st, src, parv0, cfg, o);
      r.outcome != Registered ==> r.state.mychans == st.mychans
    ensures Run(st, src, parv0, cfg, o).outcome == Registered <==>
      Gate(src, parv0, st.mychans, cfg).None? &&
      (parv0.value in st.channels || o.joinResult.Some?) && !o.vetoed
  {
  }

  // ---------------------------------------------------------------- the commit

  /** On success exactly one record is added, under the new name, and every other record is
      kept as it was. */
  lemma CommitAddsOneRecord(st: State, src: Source, parv0: Option<string>, cfg: Config, o: Oracle)
    ensures var r := Run(st, src, parv0, cfg, o);
      r.outcome == Registered ==>
        parv0.Some? && parv0.value !in st.mychans &&
        r.state.mychans.Keys == st.mychans.Keys + {parv0.value} &&
        (forall n :: n in st.mychans ==> r.state.mychans[n] == st.mychans[n])
  {
  }

  /** The mode locks, flags and time stamps of the new record: +n and +t locked on; -l
      locked iff the channel had no limit, -k iff it had no key, nothing else locked off;
      the default flags set; registered and last used now. */
  lemma CommitModeLocks(st: State, src: Source, parv0: Option<string>, cfg: Config, o: Oracle)
    requires Run(st, src, parv0, cfg, o).outcome == Registered
    ensures parv0.Some? && (parv0.value in st.channels || o.joinResult.Some?)
    ensures var mc := Run(st, src, parv0, cfg, o).state.mychans[parv0.value];
      var c := Acquired(st, parv0.value, o);
      mc.name == parv0.value &&
      mc.mlockOn == {NoExt, Topic} &&
      (Limit in mc.mlockOff <==> c.limit == 0) &&
      (Key in mc.mlockOff <==> c.key.None?) &&
      mc.mlockOff <= {Limit, Key} &&
      cfg.defcflags <= mc.flags &&
      mc.registered == o.now && mc.used == o.now
  {
  }

  /** The new record's access list is a single founder entry, granted to the caller's
      account by the caller's account, now. */
  lemma CommitFounderEntry(st: State, src: Source, parv0: Option<string>, cfg: Config, o: Oracle)
    requires Run(st, src, parv0, cfg, o).outcome == Registered
    ensures parv0.Some? && src.account.Some?
    ensures var mc := Run(st, src, parv0, cfg, o).state.mychans[parv0.value];
      |mc.access| == 1 &&
      mc.access[0].entity == src.account.value.entity &&
      mc.access[0].setter == src.account.value.entity &&
      mc.access[0].level == cfg.founderLevel &&
      mc.access[0].tmodified == o.now
  {
  }

  /** The new record's metadata: the channel's creation time, in decimal, iff it is
      positive (and it reads back as that time), and the default templates iff configured. */
  lemma CommitMetadataStored(st: State, src: Source, parv0: Option<string>, cfg: Config, o: Oracle)
    requires Run(st, src, parv0, cfg, o).outcome == Registered
    ensures parv0.Some? && (parv0.value in st.channels || o.joinResult.Some?)
    ensures var md := Run(st, src, parv0, cfg, o).state.mychans[parv0.value].metadata;
      var c := Acquired(st, parv0.value, o);
      (ChannelTsKey in md <==> c.ts > 0) &&
      (ChannelTsKey in md ==> md[ChannelTsKey] == Decimal.Render(c.ts)) &&
      (ChannelTsKey in md ==> Decimal.IsDigits(md[ChannelTsKey]) && Decimal.Value(md[ChannelTsKey]) == c.ts) &&
      (TemplatesKey in md <==> TemplatesConfigured(cfg)) &&
      (TemplatesKey in md ==> md[TemplatesKey] == cfg.deftemplates.value) &&
      md.Keys <= {ChannelTsKey, TemplatesKey}
  {
    var c := Acquired(st, parv0.value, o);
    if c.ts > 0 {
      Decimal.ValueOfRender(c.ts);
    }
  }

  /** For a creation time in the range of a 64-bit time_t, the stored rendering and its
      terminating NUL fit the handler's 21-byte buffer, so the stored value is never cut. */
  lemma StoredTimeFitsBuffer(c: Channel, cfg: Config)
    requires c.ts < 0x8000_0000_0000_0000
    ensures ChannelTsKey in CommitMetadata(c, cfg) ==> |CommitMetadata(c, cfg)[ChannelTsKey]| + 1 <= 21
  {
    if c.ts > 0 {
      Decimal.RenderFitsBuffer(c.ts);
    }
  }

  /** Registering a name twice: the second invocation fails with alreadyexists and changes
      nothing, whatever its collaborators answer. */
  lemma SecondRegistrationRejected(st: State, src: Source, parv0: Option<string>, cfg: Config, o: Oracle, o2: Oracle)
    requires Run(st, src, parv0, cfg, o).outcome == Registered
    ensures var r := Run(st, src, parv0, cfg, o);
      var r2 := Run(r.state, src, parv0, cfg, o2);
      r2.state == r.state && r2.outcome.Failed? && r2.outcome.fault.AlreadyExists?
  {
  }

  /** The store stays keyed by name. */
  lemma RunKeepsKeyedByName(st: State, src: Source, parv0: Option<string>, cfg: Config, o: Oracle)
    requires KeyedByName(st.mychans)
    ensures KeyedByName(Run(st, src, parv0, cfg, o).state.mychans)
  {
  }

  // ---------------------------------------------------------------- reconciliation

  /** The service parts exactly when the command succeeded, it joined the channel itself and
      leave_chans is set; a channel that was live before is never parted. */
  lemma PartOnlyAfterCommit(st: State, src: Source, parv0: Option<string>, cfg: Config, o: Oracle)
    ensures var r := Run(st, src, parv0, cfg, o);
      HasPart(NewEvents(st, r)) <==>
        r.outcome == Registered && parv0.value !in st.channels && cfg.leaveChans
  {
    var r := Run(st, src, parv0, cfg, o);
    var evs := NewEvents(st, r);
    if r.outcome == Registered && parv0.value !in st.channels && cfg.leaveChans {
      assert evs[1].PartEvent?;
    }
  }

  /** At most one mode change is requested, and only after a successful commit. */
  lemma AtMostOnePromotion(st: State, src: Source, parv0: Option<string>, cfg: Config, o: Oracle)
    ensures var evs := NewEvents(st, Run(st, src, parv0, cfg, o));
      forall i, j :: 0 <= i < j < |evs| ==> !(evs[i].ModeAdd? && evs[j].ModeAdd?)
    ensures HasMode(NewEvents(st, Run(st, src, parv0, cfg, o))) ==>
      Run(st, src, parv0, cfg, o).outcome == Registered
  {
  }

  /** On a channel that was already live, the caller present in it is promoted exactly as
      Promote decides: the matching mode request is sent and the status bit set. */
  lemma PromotionOnLiveChannel(st: State, src: Source, name: string, cfg: Config, o: Oracle)
    requires Run(st, src, Some(name), cfg, o).outcome == Registered
    requires name in st.channels && src.client.Some? && src.client.value in st.channels[name].members
    ensures var r := Run(st, src, Some(name), cfg, o);
      var nick := src.client.value;
      var p := Promote(cfg, o.sourceFlags, st.channels[name].members[nick]);
      name in r.state.channels && nick in r.state.channels[name].members &&
      r.state.channels[name].members[nick] == Promoted(st.channels[name].members[nick], p) &&
      NewEvents(st, r) ==
        match p
        case NoPromotion => []
        case PromoteOwner => [ModeAdd(src.serviceNick, name, cfg.ownerMode, nick)]
        case PromoteProtect => [ModeAdd(src.serviceNick, name, cfg.protectMode, nick)]
  {
  }

  /** A caller not present in a channel that was already live is not promoted: no mode
      request is sent and the live channels stay as they were. */
  lemma CallerAbsentNoPromotion(st: State, src: Source, name: string, cfg: Config, o: Oracle)
    requires Run(st, src, Some(name), cfg, o).outcome == Registered
    requires name in st.channels
    requires src.client.None? || src.client.value !in st.channels[name].members
    ensures var r := Run(st, src, Some(name), cfg, o);
      !HasMode(NewEvents(st, r)) && r.state.channels == st.channels
  {
  }

  /** A source that is not an IRC client is never promoted, whatever else holds. */
  lemma NoClientNoPromotion(st: State, src: Source, parv0: Option<string>, cfg: Config, o: Oracle)
    requires src.client.None?
    ensures !HasMode(NewEvents(st, Run(st, src, parv0, cfg, o)))
  {
  }

  /** Owner is decided before protect: owner whenever the caller qualifies for it, protect
      only when not. */
  lemma OwnerBeforeProtect(cfg: Config, fl: set<AccessFlag>, modes: set<Status>)
    ensures Promote(cfg, fl, modes) == PromoteOwner <==>
      cfg.usesOwner && UseOwner in fl && AutoOp in fl && Owner !in modes
    ensures Promote(cfg, fl, modes) == PromoteProtect <==>
      !(cfg.usesOwner && UseOwner in fl && AutoOp in fl && Owner !in modes) &&
      cfg.usesProtect && UseProtect in fl && AutoOp in fl && Protect !in modes
  {
  }

  /** Setting the status bit stops the same promotion from being decided again. */
  lemma PromotionNotRepeated(cfg: Config, fl: set<AccessFlag>, modes: set<Status>)
    requires Promote(cfg, fl, modes) != NoPromotion
    ensures Promote(cfg, fl, Promoted(modes, Promote(cfg, fl, modes))) != Promote(cfg, fl, modes)
  {
  }

  /** Re-evaluating the decision after applying it settles after at most two promotions. */
  lemma PromotionSettles(cfg: Config, fl: set<AccessFlag>, modes: set<Status>)
    ensures var m1 := Promoted(modes, Promote(cfg, fl, modes));
      var m2 := Promoted(m1, Promote(cfg, fl, m1));
      Promote(cfg, fl, m2) == NoPromotion
  {
  }

  /** A second evaluation is not always silent: a caller made owner on an ircd with both
      tiers would next be made protect. */
  lemma SecondEvaluationMayProtect(cfg: Config)
    requires cfg.usesOwner && cfg.usesProtect
    ensures var fl := {UseOwner, UseProtect, AutoOp};
      Promote(cfg, fl, {}) == PromoteOwner &&
      Promote(cfg, fl, Promoted({}, PromoteOwner)) == PromoteProtect
  {
  }

  // ---------------------------------------------------------------- end to end

  /** A verified, logged-in caller registers a channel that is not live: the service joins,
      the new channel (no key, no limit, created at ts > 0) is locked +nt-lk, its creation
      time is stored, and with leave_chans set the service parts again, after the commit. */
  lemma FreshChannelScenario(st: State, src: Source, name: string, cfg: Config, o: Oracle, ts: int)
    requires !src.fantasy && HasChannelPrefix(name)
    requires src.account.Some? && !src.account.value.waitAuth
    requires name !in st.mychans && name !in st.channels
    requires o.joinResult == Some(Channel(ts, 0, None, map[cfg.chanservNick := {}])) && ts > 0
    requires !o.vetoed && cfg.leaveChans
    ensures var r := Run(st, src, Some(name), cfg, o);
      r.outcome == Registered &&
      r.state.mychans[name].mlockOn == {NoExt, Topic} &&
      r.state.mychans[name].mlockOff == {Limit, Key} &&
      Decimal.Value(r.state.mychans[name].metadata[ChannelTsKey]) == ts &&
      name !in r.state.channels &&
      r.state.events == st.events + [JoinEvent(name, cfg.chanservNick), PartEvent(name, cfg.chanservNick)]
  {
    Decimal.ValueOfRender(ts);
  }
}
