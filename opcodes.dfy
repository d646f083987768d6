/**
 * The `MessageOpcode` table of opcodes.js: every message type of the game
 * protocol and the 32-bit opcode that tags its frames. The table lists the
 * messages in blocks of a thousand opcodes, one block per subsystem; a `Name` is
 * `None` or a block and a message of that block, each block a datatype whose
 * constructors are that block's names in the table's order, so no name occurs
 * twice. `Value` is the table's lookup and `NameOf` the inverse lookup.
 */
module Opcodes {
  import Wrappers

  datatype Name =
      None
    | Session(session: SessionName)
    | Character(character: CharacterName)
    | Inventory(inventory: InventoryName)
    | Channel(channel: ChannelName)
    | Shop(shop: ShopName)
    | Game(game: GameName)
    | Entity(entity: EntityName)

  /** The names of the session messages, opcodes 1000 to 1999. */
  datatype SessionName =
      EstablishSessionResponse | PongMessage | SessionClosedEvent | ReestablishSessionEvent
    | EstablishSessionRequest | PingMessage | CloseSessionRequest

  /** The names of the character messages, opcodes 3000 to 3999. */
  datatype CharacterName =
      CharacterSnapshotEvent | CharacterProfileUpdatedEvent | CharacterAppearanceUpdatedEvent | CharacterLoadoutCreatedEvent
    | CharacterLoadoutDeletedEvent | CharacterLoadoutRenamedEvent | CharacterLoadoutUpdatedEvent | EquipItemRequest
    | UnequipItemRequest | GetCharacterProfileRequest | UpdateProfileRequest | CreateLoadoutRequest
    | UpdateLoadoutRequest | RestoreLoadoutRequest | RenameLoadoutRequest | DeleteLoadoutRequest

  /** The names of the inventory messages, opcodes 4000 to 4999. */
  datatype InventoryName =
      InventorySnapshotEvent | ItemAddedEvent | ItemRemovedEvent | ItemUpdatedEvent
    | ItemTransferredEvent

  /** The names of the chat channel messages, opcodes 5000 to 5999. */
  datatype ChannelName =
      JoinChannelFailedEvent | LeaveChannelFailedEvent | SubscribedToChannelEvent | UnsubscribedFromChannelEvent
    | ChannelSubscriptionUpdatedEvent | ChannelSubscriptionAddedEvent | ChannelSubscriptionRemovedEvent | ChannelMessageEvent
    | ChannelMessageSentEvent | ChannelMessageSendFailedEvent | ChannelMessageAcknowledgedEvent | ChannelMessageAcknowledgementFailedEvent
    | EstablishDirectChannelFailedEvent | GroupChannelCreatedEvent | CreateGroupChannelFailedEvent | ChannelRenamedEvent
    | RenameChannelFailedEvent | ChannelInvitationEvent | ChannelInvitationExpiredEvent | ChannelInvitationSentEvent
    | InviteToChannelFailedEvent | CommunityChannelListEvent | SystemMessageEvent | JoinChannelRequest
    | LeaveChannelRequest | SendMessageToChannelRequest | AcknowledgeChannelMessageRequest | GetChannelHistoryRequest
    | EstablishDirectChannelRequest | EstablishDirectChannelByNameRequest | CreateGroupChannelRequest | TransferGroupOwnershipRequest
    | KickChannelSubscriberRequest | RenameChannelRequest | InviteToChannelRequest | InviteToChannelByNameRequest
    | RevokeChannelInviteRequest | GetCommunityChannelsRequest | SearchCommunityChannelsRequest

  /** The names of the shop messages, opcodes 9000 to 9999. */
  datatype ShopName =
      ShopUpdatedEvent | ShopTransactionsOccurredEvent | GetBuybackListResponse | ShopSessionOpenedEvent
    | ShopSessionClosedEvent | BuyItemFailedEvent | SellItemFailedEvent | BuybackItemFailedEvent
    | GetBuybackListFailedEvent | CloseShopSessionFailedEvent | KeepShopSessionAliveFailedEvent | BuyItemRequest
    | SellItemRequest | BuybackItemRequest | GetBuybackListRequest | KeepShopSessionAliveRequest
    | CloseShopSessionRequest

  /** The names of the game session messages, opcodes 100000 to 100999. */
  datatype GameName =
      GameSessionOpenedEvent | GameSessionClosedEvent | BeginBulkLoadMessage | EndBulkLoadMessage
    | GetChannelsResponse | UpdateChannelResponse | GameStabilityEvent | GetChannelsRequest
    | UpdateChannelRequest

  /** The names of the entity messages, opcodes 101000 to 101999. */
  datatype EntityName =
      EntityDespawnCommand | EntityJoinedEvent | EntityLeftEvent | EntityTeleportedEvent
    | InteractableBeginInteractionCommand | InteractableEndInteractionCommand | OccupiableBeginInteractionCommand | OccupiableEndInteractionCommand
    | OccupiableOccupantsUpdatedEvent | OccupiableOccupantQueueUpdatedEvent | MobileMovedEvent | MobileMoveTypeUpdatedEvent
    | PlayerMoveCommand | PlayerUpdateMoveTypeCommand | PlayerKeepAliveCommand | PlayerTeleportToChannelCommand
    | PlayerTeleportToMapCommand | PlayerTeleportToPositionCommand | PlayerTeleportToPlayerCommand | PlayerUpdateAppearanceCommand
    | PlayerUpdateDanceCommand | PlayerUnstuckCommand | PlayerAppearanceUpdatedEvent | PlayerDanceUpdatedEvent

  /** The largest opcode in the table, PlayerDanceUpdatedEvent's. */
  const MaxOpcode := 101023

  /** The opcode the table gives a name. */
  function Value(n: Name): (v: int)
  {
    match n
    case None => 0
    case Session(m) => SessionValue(m)
    case Character(m) => CharacterValue(m)
    case Inventory(m) => InventoryValue(m)
    case Channel(m) => ChannelValue(m)
    case Shop(m) => ShopValue(m)
    case Game(m) => GameValue(m)
    case Entity(m) => EntityValue(m)
  }

  /** The opcodes of the session messages lie in their block. */
  function SessionValue(m: SessionName): (v: int)
    ensures 1000 <= v <= 1102
  {
    match m
    case EstablishSessionResponse => 1000
    case PongMessage => 1001
    case SessionClosedEvent => 1002
    case ReestablishSessionEvent => 1003
    case EstablishSessionRequest => 1100
    case PingMessage => 1101
    case CloseSessionRequest => 1102
  }

  /** The opcodes of the character messages lie in their block. */
  function CharacterValue(m: CharacterName): (v: int)
    ensures 3000 <= v <= 3108
  {
    match m
    case CharacterSnapshotEvent => 3000
    case CharacterProfileUpdatedEvent => 3001
    case CharacterAppearanceUpdatedEvent => 3002
    case CharacterLoadoutCreatedEvent => 3003
    case CharacterLoadoutDeletedEvent => 3004
    case CharacterLoadoutRenamedEvent => 3005
    case CharacterLoadoutUpdatedEvent => 3006
    case EquipItemRequest => 3100
    case UnequipItemRequest => 3101
    case GetCharacterProfileRequest => 3102
    case UpdateProfileRequest => 3103
    case CreateLoadoutRequest => 3104
    case UpdateLoadoutRequest => 3105
    case RestoreLoadoutRequest => 3106
    case RenameLoadoutRequest => 3107
    case DeleteLoadoutRequest => 3108
  }

  /** The opcodes of the inventory messages lie in their block. */
  function InventoryValue(m: InventoryName): (v: int)
    ensures 4000 <= v <= 4004
  {
    match m
    case InventorySnapshotEvent => 4000
    case ItemAddedEvent => 4001
    case ItemRemovedEvent => 4002
    case ItemUpdatedEvent => 4003
    case ItemTransferredEvent => 4004
  }

  /** The opcodes of the chat channel messages lie in their block. */
  function ChannelValue(m: ChannelName): (v: int)
    ensures 5000 <= v <= 5115
  {
    match m
    case JoinChannelFailedEvent => 5000
    case LeaveChannelFailedEvent => 5001
    case SubscribedToChannelEvent => 5002
    case UnsubscribedFromChannelEvent => 5003
    case ChannelSubscriptionUpdatedEvent => 5004
    case ChannelSubscriptionAddedEvent => 5005
    case ChannelSubscriptionRemovedEvent => 5006
    case ChannelMessageEvent => 5007
    case ChannelMessageSentEvent => 5008
    case ChannelMessageSendFailedEvent => 5009
    case ChannelMessageAcknowledgedEvent => 5010
    case ChannelMessageAcknowledgementFailedEvent => 5011
    case EstablishDirectChannelFailedEvent => 5012
    case GroupChannelCreatedEvent => 5013
    case CreateGroupChannelFailedEvent => 5014
    case ChannelRenamedEvent => 5015
    case RenameChannelFailedEvent => 5016
    case ChannelInvitationEvent => 5017
    case ChannelInvitationExpiredEvent => 5018
    case ChannelInvitationSentEvent => 5019
    case InviteToChannelFailedEvent => 5020
    case CommunityChannelListEvent => 5021
    case SystemMessageEvent => 5022
    case JoinChannelRequest => 5100
    case LeaveChannelRequest => 5101
    case SendMessageToChannelRequest => 5102
    case AcknowledgeChannelMessageRequest => 5103
    case GetChannelHistoryRequest => 5104
    case EstablishDirectChannelRequest => 5105
    case EstablishDirectChannelByNameRequest => 5106
    case CreateGroupChannelRequest => 5107
    case TransferGroupOwnershipRequest => 5108
    case KickChannelSubscriberRequest => 5109
    case RenameChannelRequest => 5110
    case InviteToChannelRequest => 5111
    case InviteToChannelByNameRequest => 5112
    case RevokeChannelInviteRequest => 5113
    case GetCommunityChannelsRequest => 5114
    case SearchCommunityChannelsRequest => 5115
  }

  /** The opcodes of the shop messages lie in their block. */
  function ShopValue(m: ShopName): (v: int)
    ensures 9000 <= v <= 9105
  {
    match m
    case ShopUpdatedEvent => 9000
    case ShopTransactionsOccurredEvent => 9001
    case GetBuybackListResponse => 9002
    case ShopSessionOpenedEvent => 9003
    case ShopSessionClosedEvent => 9004
    case BuyItemFailedEvent => 9005
    case SellItemFailedEvent => 9006
    case BuybackItemFailedEvent => 9007
    case GetBuybackListFailedEvent => 9008
    case CloseShopSessionFailedEvent => 9009
    case KeepShopSessionAliveFailedEvent => 9010
    case BuyItemRequest => 9100
    case SellItemRequest => 9101
    case BuybackItemRequest => 9102
    case GetBuybackListRequest => 9103
    case KeepShopSessionAliveRequest => 9104
    case CloseShopSessionRequest => 9105
  }

  /** The opcodes of the game session messages lie in their block. */
  function GameValue(m: GameName): (v: int)
    ensures 100000 <= v <= 100101
  {
    match m
    case GameSessionOpenedEvent => 100000
    case GameSessionClosedEvent => 100001
    case BeginBulkLoadMessage => 100002
    case EndBulkLoadMessage => 100003
    case GetChannelsResponse => 100004
    case UpdateChannelResponse => 100005
    case GameStabilityEvent => 100006
    case GetChannelsRequest => 100100
    case UpdateChannelRequest => 100101
  }

  /** The opcodes of the entity messages lie in their block. */
  function EntityValue(m: EntityName): (v: int)
    ensures 101000 <= v <= 101023
  {
    match m
    case EntityDespawnCommand => 101000
    case EntityJoinedEvent => 101001
    case EntityLeftEvent => 101002
    case EntityTeleportedEvent => 101003
    case InteractableBeginInteractionCommand => 101004
    case InteractableEndInteractionCommand => 101005
    case OccupiableBeginInteractionCommand => 101006
    case OccupiableEndInteractionCommand => 101007
    case OccupiableOccupantsUpdatedEvent => 101008
    case OccupiableOccupantQueueUpdatedEvent => 101009
    case MobileMovedEvent => 101010
    case MobileMoveTypeUpdatedEvent => 101011
    case PlayerMoveCommand => 101012
    case PlayerUpdateMoveTypeCommand => 101013
    case PlayerKeepAliveCommand => 101014
    case PlayerTeleportToChannelCommand => 101015
    case PlayerTeleportToMapCommand => 101016
    case PlayerTeleportToPositionCommand => 101017
    case PlayerTeleportToPlayerCommand => 101018
    case PlayerUpdateAppearanceCommand => 101019
    case PlayerUpdateDanceCommand => 101020
    case PlayerUnstuckCommand => 101021
    case PlayerAppearanceUpdatedEvent => 101022
    case PlayerDanceUpdatedEvent => 101023
  }

  /**
   * The name whose opcode is `v`, if the table has one, looked up in the block
   * `v` falls in.
   */
  function NameOf(v: int): (r: Wrappers.Option<Name>)
  {
    if v == 0 then Wrappers.Some(None)
    else if 1000 <= v < 2000 then SessionNameOf(v)
    else if 3000 <= v < 4000 then CharacterNameOf(v)
    else if 4000 <= v < 5000 then InventoryNameOf(v)
    else if 5000 <= v < 6000 then ChannelNameOf(v)
    else if 9000 <= v < 10000 then ShopNameOf(v)
    else if 100000 <= v < 101000 then GameNameOf(v)
    else if 101000 <= v < 102000 then EntityNameOf(v)
    else Wrappers.None
  }

  /** The lookup among the session messages. */
  function SessionNameOf(v: int): (r: Wrappers.Option<Name>)
  {
    if v < 1003 then
      if v < 1001 then
        if v == SessionValue(EstablishSessionResponse) then Wrappers.Some(Session(EstablishSessionResponse)) else Wrappers.None
      else
        if v < 1002 then
          if v == SessionValue(PongMessage) then Wrappers.Some(Session(PongMessage)) else Wrappers.None
        else
          if v == SessionValue(SessionClosedEvent) then Wrappers.Some(Session(SessionClosedEvent)) else Wrappers.None
    else
      if v < 1101 then
        if v < 1100 then
          if v == SessionValue(ReestablishSessionEvent) then Wrappers.Some(Session(ReestablishSessionEvent)) else Wrappers.None
        else
          if v == SessionValue(EstablishSessionRequest) then Wrappers.Some(Session(EstablishSessionRequest)) else Wrappers.None
      else
        if v < 1102 then
          if v == SessionValue(PingMessage) then Wrappers.Some(Session(PingMessage)) else Wrappers.None
        else
          if v == SessionValue(CloseSessionRequest) then Wrappers.Some(Session(CloseSessionRequest)) else Wrappers.None
  }

  /** The lookup among the character messages. */
  function CharacterNameOf(v: int): (r: Wrappers.Option<Name>)
  {
    if v < 3101 then
      if v < 3004 then
        if v < 3002 then
          if v < 3001 then
            if v == CharacterValue(CharacterSnapshotEvent) then Wrappers.Some(Character(CharacterSnapshotEvent)) else Wrappers.None
          else
            if v == CharacterValue(CharacterProfileUpdatedEvent) then Wrappers.Some(Character(CharacterProfileUpdatedEvent)) else Wrappers.None
        else
          if v < 3003 then
            if v == CharacterValue(CharacterAppearanceUpdatedEvent) then Wrappers.Some(Character(CharacterAppearanceUpdatedEvent)) else Wrappers.None
          else
            if v == CharacterValue(CharacterLoadoutCreatedEvent) then Wrappers.Some(Character(CharacterLoadoutCreatedEvent)) else Wrappers.None
      else
        if v < 3006 then
          if v < 3005 then
            if v == CharacterValue(CharacterLoadoutDeletedEvent) then Wrappers.Some(Character(CharacterLoadoutDeletedEvent)) else Wrappers.None
          else
            if v == CharacterValue(CharacterLoadoutRenamedEvent) then Wrappers.Some(Character(CharacterLoadoutRenamedEvent)) else Wrappers.None
        else
          if v < 3100 then
            if v == CharacterValue(CharacterLoadoutUpdatedEvent) then Wrappers.Some(Character(CharacterLoadoutUpdatedEvent)) else Wrappers.None
          else
            if v == CharacterValue(EquipItemRequest) then Wrappers.Some(Character(EquipItemRequest)) else Wrappers.None
    else
      if v < 3105 then
        if v < 3103 then
          if v < 3102 then
            if v == CharacterValue(UnequipItemRequest) then Wrappers.Some(Character(UnequipItemRequest)) else Wrappers.None
          else
            if v == CharacterValue(GetCharacterProfileRequest) then Wrappers.Some(Character(GetCharacterProfileRequest)) else Wrappers.None
        else
          if v < 3104 then
            if v == CharacterValue(UpdateProfileRequest) then Wrappers.Some(Character(UpdateProfileRequest)) else Wrappers.None
          else
            if v == CharacterValue(CreateLoadoutRequest) then Wrappers.Some(Character(CreateLoadoutRequest)) else Wrappers.None
      else
        if v < 3107 then
          if v < 3106 then
            if v == CharacterValue(UpdateLoadoutRequest) then Wrappers.Some(Character(UpdateLoadoutRequest)) else Wrappers.None
          else
            if v == CharacterValue(RestoreLoadoutRequest) then Wrappers.Some(Character(RestoreLoadoutRequest)) else Wrappers.None
        else
          if v < 3108 then
            if v == CharacterValue(RenameLoadoutRequest) then Wrappers.Some(Character(RenameLoadoutRequest)) else Wrappers.None
          else
            if v == CharacterValue(DeleteLoadoutRequest) then Wrappers.Some(Character(DeleteLoadoutRequest)) else Wrappers.None
  }

  /** The lookup among the inventory messages. */
  function InventoryNameOf(v: int): (r: Wrappers.Option<Name>)
  {
    if v < 4002 then
      if v < 4001 then
        if v == InventoryValue(InventorySnapshotEvent) then Wrappers.Some(Inventory(InventorySnapshotEvent)) else Wrappers.None
      else
        if v == InventoryValue(ItemAddedEvent) then Wrappers.Some(Inventory(ItemAddedEvent)) else Wrappers.None
    else
      if v < 4003 then
        if v == InventoryValue(ItemRemovedEvent) then Wrappers.Some(Inventory(ItemRemovedEvent)) else Wrappers.None
      else
        if v < 4004 then
          if v == InventoryValue(ItemUpdatedEvent) then Wrappers.Some(Inventory(ItemUpdatedEvent)) else Wrappers.None
        else
          if v == InventoryValue(ItemTransferredEvent) then Wrappers.Some(Inventory(ItemTransferredEvent)) else Wrappers.None
  }

  /** The lookup among the chat channel messages. */
  function ChannelNameOf(v: int): (r: Wrappers.Option<Name>)
  {
    if v < 5019 then
      if v < 5009 then
        if v < 5004 then
          if v < 5002 then
            if v < 5001 then
              if v == ChannelValue(JoinChannelFailedEvent) then Wrappers.Some(Channel(JoinChannelFailedEvent)) else Wrappers.None
            else
              if v == ChannelValue(LeaveChannelFailedEvent) then Wrappers.Some(Channel(LeaveChannelFailedEvent)) else Wrappers.None
          else
            if v < 5003 then
              if v == ChannelValue(SubscribedToChannelEvent) then Wrappers.Some(Channel(SubscribedToChannelEvent)) else Wrappers.None
            else
              if v == ChannelValue(UnsubscribedFromChannelEvent) then Wrappers.Some(Channel(UnsubscribedFromChannelEvent)) else Wrappers.None
        else
          if v < 5006 then
            if v < 5005 then
              if v == ChannelValue(ChannelSubscriptionUpdatedEvent) then Wrappers.Some(Channel(ChannelSubscriptionUpdatedEvent)) else Wrappers.None
            else
              if v == ChannelValue(ChannelSubscriptionAddedEvent) then Wrappers.Some(Channel(ChannelSubscriptionAddedEvent)) else Wrappers.None
          else
            if v < 5007 then
              if v == ChannelValue(ChannelSubscriptionRemovedEvent) then Wrappers.Some(Channel(ChannelSubscriptionRemovedEvent)) else Wrappers.None
            else
              if v < 5008 then
                if v == ChannelValue(ChannelMessageEvent) then Wrappers.Some(Channel(ChannelMessageEvent)) else Wrappers.None
              else
                if v == ChannelValue(ChannelMessageSentEvent) then Wrappers.Some(Channel(ChannelMessageSentEvent)) else Wrappers.None
      else
        if v < 5014 then
          if v < 5011 then
            if v < 5010 then
              if v == ChannelValue(ChannelMessageSendFailedEvent) then Wrappers.Some(Channel(ChannelMessageSendFailedEvent)) else Wrappers.None
            else
              if v == ChannelValue(ChannelMessageAcknowledgedEvent) then Wrappers.Some(Channel(ChannelMessageAcknowledgedEvent)) else Wrappers.None
          else
            if v < 5012 then
              if v == ChannelValue(ChannelMessageAcknowledgementFailedEvent) then Wrappers.Some(Channel(ChannelMessageAcknowledgementFailedEvent)) else Wrappers.None
            else
              if v < 5013 then
                if v == ChannelValue(EstablishDirectChannelFailedEvent) then Wrappers.Some(Channel(EstablishDirectChannelFailedEvent)) else Wrappers.None
              else
                if v == ChannelValue(GroupChannelCreatedEvent) then Wrappers.Some(Channel(GroupChannelCreatedEvent)) else Wrappers.None
        else
          if v < 5016 then
            if v < 5015 then
              if v == ChannelValue(CreateGroupChannelFailedEvent) then Wrappers.Some(Channel(CreateGroupChannelFailedEvent)) else Wrappers.None
            else
              if v == ChannelValue(ChannelRenamedEvent) then Wrappers.Some(Channel(ChannelRenamedEvent)) else Wrappers.None
          else
            if v < 5017 then
              if v == ChannelValue(RenameChannelFailedEvent) then Wrappers.Some(Channel(RenameChannelFailedEvent)) else Wrappers.None
            else
              if v < 5018 then
                if v == ChannelValue(ChannelInvitationEvent) then Wrappers.Some(Channel(ChannelInvitationEvent)) else Wrappers.None
              else
                if v == ChannelValue(ChannelInvitationExpiredEvent) then Wrappers.Some(Channel(ChannelInvitationExpiredEvent)) else Wrappers.None
    else
      if v < 5106 then
        if v < 5101 then
          if v < 5021 then
            if v < 5020 then
              if v == ChannelValue(ChannelInvitationSentEvent) then Wrappers.Some(Channel(ChannelInvitationSentEvent)) else Wrappers.None
            else
              if v == ChannelValue(InviteToChannelFailedEvent) then Wrappers.Some(Channel(InviteToChannelFailedEvent)) else Wrappers.None
          else
            if v < 5022 then
              if v == ChannelValue(CommunityChannelListEvent) then Wrappers.Some(Channel(CommunityChannelListEvent)) else Wrappers.None
            else
              if v < 5100 then
                if v == ChannelValue(SystemMessageEvent) then Wrappers.Some(Channel(SystemMessageEvent)) else Wrappers.None
              else
                if v == ChannelValue(JoinChannelRequest) then Wrappers.Some(Channel(JoinChannelRequest)) else Wrappers.None
        else
          if v < 5103 then
            if v < 5102 then
              if v == ChannelValue(LeaveChannelRequest) then Wrappers.Some(Channel(LeaveChannelRequest)) else Wrappers.None
            else
              if v == ChannelValue(SendMessageToChannelRequest) then Wrappers.Some(Channel(SendMessageToChannelRequest)) else Wrappers.None
          else
            if v < 5104 then
              if v == ChannelValue(AcknowledgeChannelMessageRequest) then Wrappers.Some(Channel(AcknowledgeChannelMessageRequest)) else Wrappers.None
            else
              if v < 5105 then
                if v == ChannelValue(GetChannelHistoryRequest) then Wrappers.Some(Channel(GetChannelHistoryRequest)) else Wrappers.None
              else
                if v == ChannelValue(EstablishDirectChannelRequest) then Wrappers.Some(Channel(EstablishDirectChannelRequest)) else Wrappers.None
      else
        if v < 5111 then
          if v < 5108 then
            if v < 5107 then
              if v == ChannelValue(EstablishDirectChannelByNameRequest) then Wrappers.Some(Channel(EstablishDirectChannelByNameRequest)) else Wrappers.None
            else
              if v == ChannelValue(CreateGroupChannelRequest) then Wrappers.Some(Channel(CreateGroupChannelRequest)) else Wrappers.None
          else
            if v < 5109 then
              if v == ChannelValue(TransferGroupOwnershipRequest) then Wrappers.Some(Channel(TransferGroupOwnershipRequest)) else Wrappers.None
            else
              if v < 5110 then
                if v == ChannelValue(KickChannelSubscriberRequest) then Wrappers.Some(Channel(KickChannelSubscriberRequest)) else Wrappers.None
              else
                if v == ChannelValue(RenameChannelRequest) then Wrappers.Some(Channel(RenameChannelRequest)) else Wrappers.None
        else
          if v < 5113 then
            if v < 5112 then
              if v == ChannelValue(InviteToChannelRequest) then Wrappers.Some(Channel(InviteToChannelRequest)) else Wrappers.None
            else
              if v == ChannelValue(InviteToChannelByNameRequest) then Wrappers.Some(Channel(InviteToChannelByNameRequest)) else Wrappers.None
          else
            if v < 5114 then
              if v == ChannelValue(RevokeChannelInviteRequest) then Wrappers.Some(Channel(RevokeChannelInviteRequest)) else Wrappers.None
            else
              if v < 5115 then
                if v == ChannelValue(GetCommunityChannelsRequest) then Wrappers.Some(Channel(GetCommunityChannelsRequest)) else Wrappers.None
              else
                if v == ChannelValue(SearchCommunityChannelsRequest) then Wrappers.Some(Channel(SearchCommunityChannelsRequest)) else Wrappers.None
  }

  /** The lookup among the shop messages. */
  function ShopNameOf(v: int): (r: Wrappers.Option<Name>)
  {
    if v < 9008 then
      if v < 9004 then
        if v < 9002 then
          if v < 9001 then
            if v == ShopValue(ShopUpdatedEvent) then Wrappers.Some(Shop(ShopUpdatedEvent)) else Wrappers.None
          else
            if v == ShopValue(ShopTransactionsOccurredEvent) then Wrappers.Some(Shop(ShopTransactionsOccurredEvent)) else Wrappers.None
        else
          if v < 9003 then
            if v == ShopValue(GetBuybackListResponse) then Wrappers.Some(Shop(GetBuybackListResponse)) else Wrappers.None
          else
            if v == ShopValue(ShopSessionOpenedEvent) then Wrappers.Some(Shop(ShopSessionOpenedEvent)) else Wrappers.None
      else
        if v < 9006 then
          if v < 9005 then
            if v == ShopValue(ShopSessionClosedEvent) then Wrappers.Some(Shop(ShopSessionClosedEvent)) else Wrappers.None
          else
            if v == ShopValue(BuyItemFailedEvent) then Wrappers.Some(Shop(BuyItemFailedEvent)) else Wrappers.None
        else
          if v < 9007 then
            if v == ShopValue(SellItemFailedEvent) then Wrappers.Some(Shop(SellItemFailedEvent)) else Wrappers.None
          else
            if v == ShopValue(BuybackItemFailedEvent) then Wrappers.Some(Shop(BuybackItemFailedEvent)) else Wrappers.None
    else
      if v < 9101 then
        if v < 9010 then
          if v < 9009 then
            if v == ShopValue(GetBuybackListFailedEvent) then Wrappers.Some(Shop(GetBuybackListFailedEvent)) else Wrappers.None
          else
            if v == ShopValue(CloseShopSessionFailedEvent) then Wrappers.Some(Shop(CloseShopSessionFailedEvent)) else Wrappers.None
        else
          if v < 9100 then
            if v == ShopValue(KeepShopSessionAliveFailedEvent) then Wrappers.Some(Shop(KeepShopSessionAliveFailedEvent)) else Wrappers.None
          else
            if v == ShopValue(BuyItemRequest) then Wrappers.Some(Shop(BuyItemRequest)) else Wrappers.None
      else
        if v < 9103 then
          if v < 9102 then
            if v == ShopValue(SellItemRequest) then Wrappers.Some(Shop(SellItemRequest)) else Wrappers.None
          else
            if v == ShopValue(BuybackItemRequest) then Wrappers.Some(Shop(BuybackItemRequest)) else Wrappers.None
        else
          if v < 9104 then
            if v == ShopValue(GetBuybackListRequest) then Wrappers.Some(Shop(GetBuybackListRequest)) else Wrappers.None
          else
            if v < 9105 then
              if v == ShopValue(KeepShopSessionAliveRequest) then Wrappers.Some(Shop(KeepShopSessionAliveRequest)) else Wrappers.None
            else
              if v == ShopValue(CloseShopSessionRequest) then Wrappers.Some(Shop(CloseShopSessionRequest)) else Wrappers.None
  }

  /** The lookup among the game session messages. */
  function GameNameOf(v: int): (r: Wrappers.Option<Name>)
  {
    if v < 100004 then
      if v < 100002 then
        if v < 100001 then
          if v == GameValue(GameSessionOpenedEvent) then Wrappers.Some(Game(GameSessionOpenedEvent)) else Wrappers.None
        else
          if v == GameValue(GameSessionClosedEvent) then Wrappers.Some(Game(GameSessionClosedEvent)) else Wrappers.None
      else
        if v < 100003 then
          if v == GameValue(BeginBulkLoadMessage) then Wrappers.Some(Game(BeginBulkLoadMessage)) else Wrappers.None
        else
          if v == GameValue(EndBulkLoadMessage) then Wrappers.Some(Game(EndBulkLoadMessage)) else Wrappers.None
    else
      if v < 100006 then
        if v < 100005 then
          if v == GameValue(GetChannelsResponse) then Wrappers.Some(Game(GetChannelsResponse)) else Wrappers.None
        else
          if v == GameValue(UpdateChannelResponse) then Wrappers.Some(Game(UpdateChannelResponse)) else Wrappers.None
      else
        if v < 100100 then
          if v == GameValue(GameStabilityEvent) then Wrappers.Some(Game(GameStabilityEvent)) else Wrappers.None
        else
          if v < 100101 then
            if v == GameValue(GetChannelsRequest) then Wrappers.Some(Game(GetChannelsRequest)) else Wrappers.None
          else
            if v == GameValue(UpdateChannelRequest) then Wrappers.Some(Game(UpdateChannelRequest)) else Wrappers.None
  }

  /** The lookup among the entity messages. */
  function EntityNameOf(v: int): (r: Wrappers.Option<Name>)
  {
    if v < 101012 then
      if v < 101006 then
        if v < 101003 then
          if v < 101001 then
            if v == EntityValue(EntityDespawnCommand) then Wrappers.Some(Entity(EntityDespawnCommand)) else Wrappers.None
          else
            if v < 101002 then
              if v == EntityValue(EntityJoinedEvent) then Wrappers.Some(Entity(EntityJoinedEvent)) else Wrappers.None
            else
              if v == EntityValue(EntityLeftEvent) then Wrappers.Some(Entity(EntityLeftEvent)) else Wrappers.None
        else
          if v < 101004 then
            if v == EntityValue(EntityTeleportedEvent) then Wrappers.Some(Entity(EntityTeleportedEvent)) else Wrappers.None
          else
            if v < 101005 then
              if v == EntityValue(InteractableBeginInteractionCommand) then Wrappers.Some(Entity(InteractableBeginInteractionCommand)) else Wrappers.None
            else
              if v == EntityValue(InteractableEndInteractionCommand) then Wrappers.Some(Entity(InteractableEndInteractionCommand)) else Wrappers.None
      else
        if v < 101009 then
          if v < 101007 then
            if v == EntityValue(OccupiableBeginInteractionCommand) then Wrappers.Some(Entity(OccupiableBeginInteractionCommand)) else Wrappers.None
          else
            if v < 101008 then
              if v == EntityValue(OccupiableEndInteractionCommand) then Wrappers.Some(Entity(OccupiableEndInteractionCommand)) else Wrappers.None
            else
              if v == EntityValue(OccupiableOccupantsUpdatedEvent) then Wrappers.Some(Entity(OccupiableOccupantsUpdatedEvent)) else Wrappers.None
        else
          if v < 101010 then
            if v == EntityValue(OccupiableOccupantQueueUpdatedEvent) then Wrappers.Some(Entity(OccupiableOccupantQueueUpdatedEvent)) else Wrappers.None
          else
            if v < 101011 then
              if v == EntityValue(MobileMovedEvent) then Wrappers.Some(Entity(MobileMovedEvent)) else Wrappers.None
            else
              if v == EntityValue(MobileMoveTypeUpdatedEvent) then Wrappers.Some(Entity(MobileMoveTypeUpdatedEvent)) else Wrappers.None
    else
      if v < 101018 then
        if v < 101015 then
          if v < 101013 then
            if v == EntityValue(PlayerMoveCommand) then Wrappers.Some(Entity(PlayerMoveCommand)) else Wrappers.None
          else
            if v < 101014 then
              if v == EntityValue(PlayerUpdateMoveTypeCommand) then Wrappers.Some(Entity(PlayerUpdateMoveTypeCommand)) else Wrappers.None
            else
              if v == EntityValue(PlayerKeepAliveCommand) then Wrappers.Some(Entity(PlayerKeepAliveCommand)) else Wrappers.None
        else
          if v < 101016 then
            if v == EntityValue(PlayerTeleportToChannelCommand) then Wrappers.Some(Entity(PlayerTeleportToChannelCommand)) else Wrappers.None
          else
            if v < 101017 then
              if v == EntityValue(PlayerTeleportToMapCommand) then Wrappers.Some(Entity(PlayerTeleportToMapCommand)) else Wrappers.None
            else
              if v == EntityValue(PlayerTeleportToPositionCommand) then Wrappers.Some(Entity(PlayerTeleportToPositionCommand)) else Wrappers.None
      else
        if v < 101021 then
          if v < 101019 then
            if v == EntityValue(PlayerTeleportToPlayerCommand) then Wrappers.Some(Entity(PlayerTeleportToPlayerCommand)) else Wrappers.None
          else
            if v < 101020 then
              if v == EntityValue(PlayerUpdateAppearanceCommand) then Wrappers.Some(Entity(PlayerUpdateAppearanceCommand)) else Wrappers.None
            else
              if v == EntityValue(PlayerUpdateDanceCommand) then Wrappers.Some(Entity(PlayerUpdateDanceCommand)) else Wrappers.None
        else
          if v < 101022 then
            if v == EntityValue(PlayerUnstuckCommand) then Wrappers.Some(Entity(PlayerUnstuckCommand)) else Wrappers.None
          else
            if v < 101023 then
              if v == EntityValue(PlayerAppearanceUpdatedEvent) then Wrappers.Some(Entity(PlayerAppearanceUpdatedEvent)) else Wrappers.None
            else
              if v == EntityValue(PlayerDanceUpdatedEvent) then Wrappers.Some(Entity(PlayerDanceUpdatedEvent)) else Wrappers.None
  }

  /** Looking up a name's opcode finds that name again. */
  lemma NameOfValue(n: Name)
    ensures NameOf(Value(n)) == Wrappers.Some(n)
  {
    match n
    case None => {}
    case Session(m) => SessionNameOfValue(m);
    case Character(m) => CharacterNameOfValue(m);
    case Inventory(m) => InventoryNameOfValue(m);
    case Channel(m) => ChannelNameOfValue(m);
    case Shop(m) => ShopNameOfValue(m);
    case Game(m) => GameNameOfValue(m);
    case Entity(m) => EntityNameOfValue(m);
  }

  lemma SessionNameOfValue(m: SessionName)
    ensures SessionNameOf(SessionValue(m)) == Wrappers.Some(Session(m))
  {
    match m
    case EstablishSessionResponse => {}
    case PongMessage => {}
    case SessionClosedEvent => {}
    case ReestablishSessionEvent => {}
    case EstablishSessionRequest => {}
    case PingMessage => {}
    case CloseSessionRequest => {}
  }

  lemma CharacterNameOfValue(m: CharacterName)
    ensures CharacterNameOf(CharacterValue(m)) == Wrappers.Some(Character(m))
  {
    match m
    case CharacterSnapshotEvent => {}
    case CharacterProfileUpdatedEvent => {}
    case CharacterAppearanceUpdatedEvent => {}
    case CharacterLoadoutCreatedEvent => {}
    case CharacterLoadoutDeletedEvent => {}
    case CharacterLoadoutRenamedEvent => {}
    case CharacterLoadoutUpdatedEvent => {}
    case EquipItemRequest => {}
    case UnequipItemRequest => {}
    case GetCharacterProfileRequest => {}
    case UpdateProfileRequest => {}
    case CreateLoadoutRequest => {}
    case UpdateLoadoutRequest => {}
    case RestoreLoadoutRequest => {}
    case RenameLoadoutRequest => {}
    case DeleteLoadoutRequest => {}
  }

  lemma InventoryNameOfValue(m: InventoryName)
    ensures InventoryNameOf(InventoryValue(m)) == Wrappers.Some(Inventory(m))
  {
    match m
    case InventorySnapshotEvent => {}
    case ItemAddedEvent => {}
    case ItemRemovedEvent => {}
    case ItemUpdatedEvent => {}
    case ItemTransferredEvent => {}
  }

  lemma ChannelNameOfValue(m: ChannelName)
    ensures ChannelNameOf(ChannelValue(m)) == Wrappers.Some(Channel(m))
  {
    match m
    case JoinChannelFailedEvent => {}
    case LeaveChannelFailedEvent => {}
    case SubscribedToChannelEvent => {}
    case UnsubscribedFromChannelEvent => {}
    case ChannelSubscriptionUpdatedEvent => {}
    case ChannelSubscriptionAddedEvent => {}
    case ChannelSubscriptionRemovedEvent => {}
    case ChannelMessageEvent => {}
    case ChannelMessageSentEvent => {}
    case ChannelMessageSendFailedEvent => {}
    case ChannelMessageAcknowledgedEvent => {}
    case ChannelMessageAcknowledgementFailedEvent => {}
    case EstablishDirectChannelFailedEvent => {}
    case GroupChannelCreatedEvent => {}
    case CreateGroupChannelFailedEvent => {}
    case ChannelRenamedEvent => {}
    case RenameChannelFailedEvent => {}
    case ChannelInvitationEvent => {}
    case ChannelInvitationExpiredEvent => {}
    case ChannelInvitationSentEvent => {}
    case InviteToChannelFailedEvent => {}
    case CommunityChannelListEvent => {}
    case SystemMessageEvent => {}
    case JoinChannelRequest => {}
    case LeaveChannelRequest => {}
    case SendMessageToChannelRequest => {}
    case AcknowledgeChannelMessageRequest => {}
    case GetChannelHistoryRequest => {}
    case EstablishDirectChannelRequest => {}
    case EstablishDirectChannelByNameRequest => {}
    case CreateGroupChannelRequest => {}
    case TransferGroupOwnershipRequest => {}
    case KickChannelSubscriberRequest => {}
    case RenameChannelRequest => {}
    case InviteToChannelRequest => {}
    case InviteToChannelByNameRequest => {}
    case RevokeChannelInviteRequest => {}
    case GetCommunityChannelsRequest => {}
    case SearchCommunityChannelsRequest => {}
  }

  lemma ShopNameOfValue(m: ShopName)
    ensures ShopNameOf(ShopValue(m)) == Wrappers.Some(Shop(m))
  {
    match m
    case ShopUpdatedEvent => {}
    case ShopTransactionsOccurredEvent => {}
    case GetBuybackListResponse => {}
    case ShopSessionOpenedEvent => {}
    case ShopSessionClosedEvent => {}
    case BuyItemFailedEvent => {}
    case SellItemFailedEvent => {}
    case BuybackItemFailedEvent => {}
    case GetBuybackListFailedEvent => {}
    case CloseShopSessionFailedEvent => {}
    case KeepShopSessionAliveFailedEvent => {}
    case BuyItemRequest => {}
    case SellItemRequest => {}
    case BuybackItemRequest => {}
    case GetBuybackListRequest => {}
    case KeepShopSessionAliveRequest => {}
    case CloseShopSessionRequest => {}
  }

  lemma GameNameOfValue(m: GameName)
    ensures GameNameOf(GameValue(m)) == Wrappers.Some(Game(m))
  {
    match m
    case GameSessionOpenedEvent => {}
    case GameSessionClosedEvent => {}
    case BeginBulkLoadMessage => {}
    case EndBulkLoadMessage => {}
    case GetChannelsResponse => {}
    case UpdateChannelResponse => {}
    case GameStabilityEvent => {}
    case GetChannelsRequest => {}
    case UpdateChannelRequest => {}
  }

  lemma EntityNameOfValue(m: EntityName)
    ensures EntityNameOf(EntityValue(m)) == Wrappers.Some(Entity(m))
  {
    match m
    case EntityDespawnCommand => {}
    case EntityJoinedEvent => {}
    case EntityLeftEvent => {}
    case EntityTeleportedEvent => {}
    case InteractableBeginInteractionCommand => {}
    case InteractableEndInteractionCommand => {}
    case OccupiableBeginInteractionCommand => {}
    case OccupiableEndInteractionCommand => {}
    case OccupiableOccupantsUpdatedEvent => {}
    case OccupiableOccupantQueueUpdatedEvent => {}
    case MobileMovedEvent => {}
    case MobileMoveTypeUpdatedEvent => {}
    case PlayerMoveCommand => {}
    case PlayerUpdateMoveTypeCommand => {}
    case PlayerKeepAliveCommand => {}
    case PlayerTeleportToChannelCommand => {}
    case PlayerTeleportToMapCommand => {}
    case PlayerTeleportToPositionCommand => {}
    case PlayerTeleportToPlayerCommand => {}
    case PlayerUpdateAppearanceCommand => {}
    case PlayerUpdateDanceCommand => {}
    case PlayerUnstuckCommand => {}
    case PlayerAppearanceUpdatedEvent => {}
    case PlayerDanceUpdatedEvent => {}
  }

  /** The lookup only finds names whose opcode is the one looked up. */
  lemma ValueOfNameOf(v: int)
    requires NameOf(v).Some?
    ensures Value(NameOf(v).value) == v
  {
    if v == 0 {}
    else if 1000 <= v < 2000 { SessionValueOfNameOf(v); }
    else if 3000 <= v < 4000 { CharacterValueOfNameOf(v); }
    else if 4000 <= v < 5000 { InventoryValueOfNameOf(v); }
    else if 5000 <= v < 6000 { ChannelValueOfNameOf(v); }
    else if 9000 <= v < 10000 { ShopValueOfNameOf(v); }
    else if 100000 <= v < 101000 { GameValueOfNameOf(v); }
    else if 101000 <= v < 102000 { EntityValueOfNameOf(v); }
  }

  lemma SessionValueOfNameOf(v: int)
    requires SessionNameOf(v).Some?
    ensures Value(SessionNameOf(v).value) == v
  {
  }

  lemma CharacterValueOfNameOf(v: int)
    requires CharacterNameOf(v).Some?
    ensures Value(CharacterNameOf(v).value) == v
  {
  }

  lemma InventoryValueOfNameOf(v: int)
    requires InventoryNameOf(v).Some?
    ensures Value(InventoryNameOf(v).value) == v
  {
  }

  lemma ChannelValueOfNameOf(v: int)
    requires ChannelNameOf(v).Some?
    ensures Value(ChannelNameOf(v).value) == v
  {
  }

  lemma ShopValueOfNameOf(v: int)
    requires ShopNameOf(v).Some?
    ensures Value(ShopNameOf(v).value) == v
  {
  }

  lemma GameValueOfNameOf(v: int)
    requires GameNameOf(v).Some?
    ensures Value(GameNameOf(v).value) == v
  {
  }

  lemma EntityValueOfNameOf(v: int)
    requires EntityNameOf(v).Some?
    ensures Value(EntityNameOf(v).value) == v
  {
  }

  /** No two names share an opcode, so opcode to name is well defined. */
  lemma ValueInjective(a: Name, b: Name)
    requires Value(a) == Value(b)
    ensures a == b
  {
    NameOfValue(a);
    NameOfValue(b);
  }

  /** `None` is 0, the opcode the websocket handler falls back to for short input. */
  lemma NoneIsZero()
    ensures Value(None) == 0 && NameOf(0) == Wrappers.Some(None)
  {
  }

  /** Every opcode in the table fits the 32-bit header field. */
  lemma ValueFitsUInt32(n: Name)
    ensures 0 <= Value(n) <= MaxOpcode < 0x1_0000_0000
  {
  }

  /** The bound is attained, so `MaxOpcode` is the table's maximum. */
  lemma MaxOpcodeAttained()
    ensures Value(Entity(PlayerDanceUpdatedEvent)) == MaxOpcode
  {
  }
}
