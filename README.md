# FREGISTER: forced channel registration

A Dafny model of the ChanServ `FREGISTER <#channel>` command handler of the atheme
contrib module `cs_fregister` (`cs_cmd_fregister`). An operator uses it to register a
channel to themselves without the checks of the ordinary REGISTER command. The handler
runs in five stages:

1. an ordered precondition gate: not a fantasy command, a name given, the name starts
   with `#`, the caller logged in, the caller's account verified, the name not yet
   registered;
2. channel acquisition: if the channel is not live, ChanServ joins it and remembers that
   it did;
3. the can-register hook, which may stop the command silently;
4. the commit: a new registration with time stamps, mode locks (`+nt`, and `-l` / `-k`
   when the channel has no limit / no key; the `n`, `t`, `l` and `k` modes of section 4.2
   of RFC 2811), the default flags, a founder access entry for the caller, and the
   channel's creation time and default templates as metadata;
5. reconciliation: ChanServ parts a channel it joined only for this, when `leave_chans`
   is set, then promotes the caller to owner, or else to protect, or not at all.

Files:

- `chanserv.dfy` (module `ChanServ`): the entities. C bitmasks (mode locks, channel
  flags, access flags, member status) are sets of named bits; `|=` is set union.
- `decimal.dfy` (module `Decimal`): the `"%lu"` rendering of the channel time stamp, its
  inverse, and the bound showing the 21-byte buffer never truncates it.
- `fregister.dfy` (module `FRegister`): `Run`, the state after one invocation and its
  outcome as a function of the state before; and class `Services` (registration store,
  live channels, trace of network requests) whose method `FRegister` is the handler
  written step by step with early returns, proved equal to `Run`.
- `fregister_properties.dfy` (module `FRegisterProperties`): the properties of `Run`.

The collaborators the handler calls are inputs (datatype `FRegister.Oracle`): the current
time, the channel `channel_find` returns after `join`, whether a can-register hook
refused, and the caller's access flags as `chanacs_source_flags` computes them after the
commit. `join`, `part` and `modestack_mode_param` append a request to the trace; `join`
installs the channel the network reports, and `part` removes ChanServ from the channel and
drops a channel left empty.

Re-evaluating the owner/protect decision after applying it is not always silent: on an
ircd with both tiers, a caller with both capabilities who was just made owner would next
be made protect (`SecondEvaluationMayProtect`). What holds is that the same promotion is
never decided twice and the decision settles after two rounds. The handler itself decides
only once.

The commit has no duplicate check of its own: the handler uses the result of `mychan_add`
unconditionally (cs_fregister.c:90-91), so the gate at lines 58-66 is the only guard
against registering a name twice. A caller who is not logged in is rejected with the
`noprivs` fault kind (line 48).

## Model

| member | source | states |
|---|---|---|
| FRegister.Services.FRegister | cs_fregister.c:12-141 | the handler leaves the state and returns the outcome that `Run` gives for the state before; the store stays keyed by name |
| FRegister.Services.Commit | cs_fregister.c:90-110 | the store gains exactly the committed record under the name and stays keyed by name; channels and trace are unchanged |
| FRegister.Services.Join | cs_fregister.c:69-77 | a join request is sent and the channel the network reports is installed |
| FRegister.Services.Part | cs_fregister.c:114-117 | a part request is sent and ChanServ leaves; an emptied channel disappears |
| FRegister.Services.PromoteCaller | cs_fregister.c:123-140 | the caller present in the channel is promoted as `Promote` decides, with the matching mode request |
| FRegister.Run | cs_fregister.c:12-141 | one invocation never changes an existing registration, adds a registration only under the given name and only on success, and only appends to the network trace |
| FRegister.Committed | cs_fregister.c:90-100 | the new record carries the name, registered and used now, `+nt` locked on, the default flags, and one founder entry granted to and by the caller's account now |
| FRegister.CommitMetadata | cs_fregister.c:102-110 | the channel time is stored, as its decimal rendering, iff positive; the templates iff configured and non-empty; no other key |
| FRegister.JoinState | cs_fregister.c:71-72 | a join leaves the store as it was, appends the join request, makes the channel live iff it was or the network created it, and leaves other channels alone |
| FRegister.PartState | cs_fregister.c:116 | a part leaves the store as it was, appends the part request, removes the nick from the channel, drops the channel only if nobody else was in it, and leaves other channels alone |
| FRegister.Promote | cs_fregister.c:127-140 | an owner promotion needs owner support, use-owner and auto-op, and the caller not already owner; a protect promotion the same for protect |
| FRegister.Reconcile | cs_fregister.c:123-140 | reconciliation leaves the store and the set of live channels alone, changes nothing when the caller is not in the channel, and appends at most one request |
| FRegister.Gate | cs_fregister.c:28-66 | the gate lets the command through iff it is not fantasy, a name is given, it starts with '#', the caller is logged in and verified, and the name is unregistered; otherwise it ignores or fails |
| FRegister.MlockOff | cs_fregister.c:94-97 | `-l` is locked iff the channel has no limit, `-k` iff it has no key, nothing else |
| Decimal.Render | cs_fregister.c:104 | the rendering is a non-empty string of digits with no leading zero |
| Decimal.ValueOfRender | cs_fregister.c:104-105 | reading the stored rendering back gives the time stamp |
| Decimal.RenderInjective | cs_fregister.c:104-105 | distinct time stamps are stored as distinct strings |
| Decimal.RenderFitsBuffer | cs_fregister.c:18 | any 64-bit value renders in at most 20 characters, so with its NUL it fits `str[21]` |
| FRegisterProperties.FantasyIsIgnored | cs_fregister.c:28-29 | a fantasy command changes nothing and is ignored silently |
| FRegisterProperties.NameIsChecked | cs_fregister.c:31-43 | no name: needmoreparams; a name not starting with '#': badparams; nothing changes |
| FRegisterProperties.OnlyHashPrefixAccepted | cs_fregister.c:38-43 | names with the other RFC 2811 prefixes ('&', '+', '!') fail with badparams |
| FRegisterProperties.LoginBeforeVerification | cs_fregister.c:45-56 | not logged in: noprivs, whatever the store holds; logged in but awaiting verification: notverified; nothing changes |
| FRegisterProperties.AlreadyRegistered | cs_fregister.c:58-66 | a registered name fails with alreadyexists and the whole state is unchanged; founders are shown iff channel privacy is off or the record is not private |
| FRegisterProperties.GateRejectionChangesNothing | cs_fregister.c:28-66 | every gate rejection leaves the state as it was |
| FRegisterProperties.EventsOnlyAppended | cs_fregister.c:71 | requests are only appended to the network trace |
| FRegisterProperties.JoinOnlyWhenAbsent | cs_fregister.c:69-78 | a join is sent iff the gate passed and the channel was not live |
| FRegisterProperties.InternalErrorIffJoinFails | cs_fregister.c:69-76 | internalerror iff the gate passed, the channel was not live and the join did not create it; then only the join was sent |
| FRegisterProperties.VetoIsSilentWithoutPart | cs_fregister.c:80-86 | a refusing hook stops the command with no registration and no part; the acquired channel stays |
| FRegisterProperties.RegistrationOnlyOnSuccess | cs_fregister.c:28-90 | the store changes only on success, and success comes iff the gate passed, a channel was acquired and no hook refused |
| FRegisterProperties.CommitAddsOneRecord | cs_fregister.c:90 | success adds exactly one record, under a name not registered before, and keeps every other record |
| FRegisterProperties.CommitModeLocks | cs_fregister.c:90-98 | the record locks +nt on, -l iff no limit, -k iff no key, includes the default flags, and is registered and used now |
| FRegisterProperties.CommitFounderEntry | cs_fregister.c:100 | the access list is one founder entry whose grantee and grantor are the caller's account, set now |
| FRegisterProperties.CommitMetadataStored | cs_fregister.c:102-110 | the channel time is stored iff positive, as its decimal rendering, which reads back as that time; the templates are stored iff configured and non-empty; no other key |
| FRegisterProperties.StoredTimeFitsBuffer | cs_fregister.c:102-105 | for a creation time in the 64-bit time_t range, the stored rendering with its NUL fits the 21-byte buffer |
| FRegisterProperties.SecondRegistrationRejected | cs_fregister.c:59-66 | after a success, the same command fails with alreadyexists and changes nothing |
| FRegisterProperties.RunKeepsKeyedByName | cs_fregister.c:90 | every record stays stored under its own name |
| FRegisterProperties.PartOnlyAfterCommit | cs_fregister.c:114-117 | a part is sent iff the command succeeded, ChanServ joined the channel itself and leave_chans is set |
| FRegisterProperties.AtMostOnePromotion | cs_fregister.c:123-140 | at most one mode request is sent, and only after a success |
| FRegisterProperties.PromotionOnLiveChannel | cs_fregister.c:123-140 | on a channel live before, a present caller gets exactly the promotion `Promote` decides, its status bit and its single mode request |
| FRegisterProperties.CallerAbsentNoPromotion | cs_fregister.c:124-126 | on a channel live before, a caller not in it gets no mode request and the live channels are unchanged |
| FRegisterProperties.NoClientNoPromotion | cs_fregister.c:124-126 | a source that is not an IRC client never gets a mode request |
| FRegisterProperties.OwnerBeforeProtect | cs_fregister.c:127-140 | owner whenever the caller qualifies for it; protect only when not owner-qualified and protect-qualified |
| FRegisterProperties.PromotionNotRepeated | cs_fregister.c:132 | once the status bit is set, the same promotion is not decided again |
| FRegisterProperties.PromotionSettles | cs_fregister.c:127-140 | re-evaluating the decision after applying it reaches no promotion within two rounds |
| FRegisterProperties.SecondEvaluationMayProtect | cs_fregister.c:127-140 | with both tiers, a caller just made owner would next be made protect |
| FRegisterProperties.FreshChannelScenario | cs_fregister.c:12-141 | registering a channel that is not live: join, +nt -lk locks, stored creation time, then part, in that order |

## Left out

- Reply and log text: `command_fail` / `command_success_nodata` wording, i18n and `logcommand` (cs_fregister.c:88). Only the fault kind, and whether founders are named, are modelled.
- Hook dispatch: the can-register hook is an arbitrary refusal input; the register hook (cs_fregister.c:119-121) changes no modelled state, and its effect on the caller's access reaches the decision through the access-flag input.
- `chanacs_source_flags`, `custom_founder_check` and `mychan_founder_names` are not part of this model; the first two are inputs, the third is reduced to whether founders are named.
- `mychan_add` is not part of this model: it is taken to return an empty record, which the handler then fills in. The link from the record to the live channel is a lookup by name.
- Delivery of `join`, `part` and `modestack_mode_param` to the network: each is a request appended to a trace.
- Case-insensitive channel name lookup in the registration store and channel list: both are keyed by the exact name.
- The command table (privilege `PRIV_CHAN_ADMIN`, at most 3 parameters), `mod_init` / `mod_deinit` and the module declaration (cs_fregister.c:143-164): dispatch glue.
- ircd_catserv.c: service creation and fixed replies, no logic.
- Concurrent invocations: each command runs as one step of the single-threaded event loop.
- The `snprintf` buffer itself: the time stamp is rendered by a function; `Decimal.RenderFitsBuffer` shows the buffer is large enough for every 64-bit value.
- Channel time stamps are unbounded integers, not 64-bit `time_t`: the commit does not assume a bound, so the buffer fit of the stored value is stated separately, in `FRegisterProperties.StoredTimeFitsBuffer`, under the time_t range as its precondition.
