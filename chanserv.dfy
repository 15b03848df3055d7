/** The entities the forced-registration command reads and writes: the caller, the live
    channel, the channel registration with its access list and metadata, the services
    configuration, the network events the command emits and the command's outcome.
    The source's C bitmasks (mode locks, channel flags, access flags, membership status)
    are sets of named bits; `|=` on a bitmask is set union. */
module ChanServ {

  datatype Option<T> = None | Some(value: T)

  /** Simple channel modes (CMODE_*); only the four the registration locks are named. */
  datatype ChannelMode = NoExt | Topic | Limit | Key | OtherMode(letter: char)

  /** Registration flags (MC_*); only MC_PRIVATE is read by the command. */
  datatype ChanFlag = Private | OtherFlag(bit: nat)

  /** Access flags (CA_*); only the three the promotion decision reads are named. */
  datatype AccessFlag = UseOwner | UseProtect | AutoOp | OtherAccess(bit: nat)

  /** Per-member status bits in a live channel (CSTATUS_*). */
  datatype Status = Owner | Protect | Op | Halfop | Voice

  /** The logged-in account of the caller: its entity name and whether its e-mail
      address is still awaiting verification (MU_WAITAUTH). */
  datatype Account = Account(entity: string, waitAuth: bool)

  /** Who issued the command. `fantasy` is true when the command was typed in a channel
      (`si->c != NULL`); `client` is the caller's nick on the network, absent for sources
      that are not IRC clients; `serviceNick` is the nick of the service that received it. */
  datatype Source = Source(fantasy: bool, account: Option<Account>, client: Option<string>, serviceNick: string)

  /** A channel live on the network: creation time stamp, user limit (0 = none), key
      (absent = none) and the status bits of every member, keyed by nick. */
  datatype Channel = Channel(ts: int, limit: nat, key: Option<string>, members: map<string, set<Status>>)

  /** One access-list entry: the entity granted, its flags, when, and by whom. */
  datatype ChanAcs = ChanAcs(entity: string, level: set<AccessFlag>, tmodified: int, setter: string)

  /** A channel registration (mychan_t), with the fields the command sets. */
  datatype MyChan = MyChan(
    name: string,
    registered: int,
    used: int,
    mlockOn: set<ChannelMode>,
    mlockOff: set<ChannelMode>,
    flags: set<ChanFlag>,
    access: seq<ChanAcs>,
    metadata: map<string, string>)

  /** The settings the command consults. `founderLevel` is what the founder-flag helper
      returns; `ownerMode` and `protectMode` are the mode letters of the ircd's owner and
      protect status. */
  datatype Config = Config(
    chanservNick: string,
    leaveChans: bool,
    useChannelPrivate: bool,
    defcflags: set<ChanFlag>,
    deftemplates: Option<string>,
    founderLevel: set<AccessFlag>,
    usesOwner: bool,
    usesProtect: bool,
    ownerMode: char,
    protectMode: char)

  /** Requests the command sends to the network, in the order it sends them. */
  datatype Event =
    | JoinEvent(channel: string, nick: string)
    | PartEvent(channel: string, nick: string)
    | ModeAdd(sender: string, channel: string, mode: char, target: string)

  /** The fault kinds a failed command reports. `AlreadyExists` records whether the reply
      names the existing founders. */
  datatype Fault = NeedMoreParams | BadParams | NoPrivs | NotVerified | AlreadyExists(foundersShown: bool) | InternalError

  /** How one invocation ends: ignored without a reply (fantasy), failed with a fault,
      stopped without a reply by a can-register hook, or registered. */
  datatype Outcome = Ignored | Failed(fault: Fault) | Vetoed | Registered

  const ChannelTsKey: string := "private:channelts"
  const TemplatesKey: string := "private:templates"
}
