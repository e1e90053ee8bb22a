/**
 * The websocket event table `EVENT_TYPES` (a `"type:mediaType"` code to an
 * event name) and the notification table `NOTIF_TYPES`, as total lookup
 * functions over a datatype of the known chat events.
 */
module WsEvents {
  import opened Wrappers
  import Strings

  /** The chat events `EVENT_TYPES` names, in table order. */
  datatype ChatEvent =
    | TextMessage
    | ImageMessage
    | YoutubeMessage
    | StrikeMessage
    | VoiceMessage
    | StickerMessage
    | ShareExurlMessage
    | VcNotAnswered
    | VcNotCancelled
    | VcNotDeclined
    | VideoChatNotAnswered
    | VideoChatNotCancelled
    | VideoChatNotDeclined
    | AvatarChatNotAnswered
    | AvatarChatNotCancelled
    | AvatarChatNotDeclined
    | DeleteMessage
    | MemberJoin
    | MemberLeave
    | ChatInvite
    | ChatBackgroundChanged
    | ChatTitleChanged
    | ChatIconChanged
    | VcStart
    | VideoChatStart
    | AvatarChatStart
    | VcEnd
    | VideoChatEnd
    | AvatarChatEnd
    | ChatContentChanged
    | ScreenRoomStart
    | ScreenRoomEnd
    | ChatHostTransfered
    | TextMessageForceRemoved
    | ChatRemovedMessage
    | ModDeletedMessage
    | ChatTip
    | ChatPinAnnouncement
    | VcPermissionOpenToEveryone
    | VcPermissionInvitedAndRequested
    | VcPermissionInviteOnly
    | ChatViewOnlyEnabled
    | ChatViewOnlyDisabled
    | ChatUnpinAnnouncement
    | ChatTippingEnabled
    | ChatTippingDisabled
    | TimestampMessage
    | WelcomeMessage
    | InviteMessage

  /** The event names, as `EVENT_TYPES` spells them. */
  const TextMessageName: string := "text_message"
  const ImageMessageName: string := "image_message"
  const YoutubeMessageName: string := "youtube_message"
  const StrikeMessageName: string := "strike_message"
  const VoiceMessageName: string := "voice_message"
  const StickerMessageName: string := "sticker_message"
  const ShareExurlMessageName: string := "share_exurl_message"
  const VcNotAnsweredName: string := "vc_not_answered"
  const VcNotCancelledName: string := "vc_not_cancelled"
  const VcNotDeclinedName: string := "vc_not_declined"
  const VideoChatNotAnsweredName: string := "video_chat_not_answered"
  const VideoChatNotCancelledName: string := "video_chat_not_cancelled"
  const VideoChatNotDeclinedName: string := "video_chat_not_declined"
  const AvatarChatNotAnsweredName: string := "avatar_chat_not_answered"
  const AvatarChatNotCancelledName: string := "avatar_chat_not_cancelled"
  const AvatarChatNotDeclinedName: string := "avatar_chat_not_declined"
  const DeleteMessageName: string := "delete_message"
  const MemberJoinName: string := "member_join"
  const MemberLeaveName: string := "member_leave"
  const ChatInviteName: string := "chat_invite"
  const ChatBackgroundChangedName: string := "chat_background_changed"
  const ChatTitleChangedName: string := "chat_title_changed"
  const ChatIconChangedName: string := "chat_icon_changed"
  const VcStartName: string := "vc_start"
  const VideoChatStartName: string := "video_chat_start"
  const AvatarChatStartName: string := "avatar_chat_start"
  const VcEndName: string := "vc_end"
  const VideoChatEndName: string := "video_chat_end"
  const AvatarChatEndName: string := "avatar_chat_end"
  const ChatContentChangedName: string := "chat_content_changed"
  const ScreenRoomStartName: string := "screen_room_start"
  const ScreenRoomEndName: string := "screen_room_end"
  const ChatHostTransferedName: string := "chat_host_transfered"
  const TextMessageForceRemovedName: string := "text_message_force_removed"
  const ChatRemovedMessageName: string := "chat_removed_message"
  const ModDeletedMessageName: string := "mod_deleted_message"
  const ChatTipName: string := "chat_tip"
  const ChatPinAnnouncementName: string := "chat_pin_announcement"
  const VcPermissionOpenToEveryoneName: string := "vc_permission_open_to_everyone"
  const VcPermissionInvitedAndRequestedName: string := "vc_permission_invited_and_requested"
  const VcPermissionInviteOnlyName: string := "vc_permission_invite_only"
  const ChatViewOnlyEnabledName: string := "chat_view_only_enabled"
  const ChatViewOnlyDisabledName: string := "chat_view_only_disabled"
  const ChatUnpinAnnouncementName: string := "chat_unpin_announcement"
  const ChatTippingEnabledName: string := "chat_tipping_enabled"
  const ChatTippingDisabledName: string := "chat_tipping_disabled"
  const TimestampMessageName: string := "timestamp_message"
  const WelcomeMessageName: string := "welcome_message"
  const InviteMessageName: string := "invite_message"

  /** The event's name. */
  function Name(e: ChatEvent): string {
    match e
    case TextMessage => TextMessageName
    case ImageMessage => ImageMessageName
    case YoutubeMessage => YoutubeMessageName
    case StrikeMessage => StrikeMessageName
    case VoiceMessage => VoiceMessageName
    case StickerMessage => StickerMessageName
    case ShareExurlMessage => ShareExurlMessageName
    case VcNotAnswered => VcNotAnsweredName
    case VcNotCancelled => VcNotCancelledName
    case VcNotDeclined => VcNotDeclinedName
    case VideoChatNotAnswered => VideoChatNotAnsweredName
    case VideoChatNotCancelled => VideoChatNotCancelledName
    case VideoChatNotDeclined => VideoChatNotDeclinedName
    case AvatarChatNotAnswered => AvatarChatNotAnsweredName
    case AvatarChatNotCancelled => AvatarChatNotCancelledName
    case AvatarChatNotDeclined => AvatarChatNotDeclinedName
    case DeleteMessage => DeleteMessageName
    case MemberJoin => MemberJoinName
    case MemberLeave => MemberLeaveName
    case ChatInvite => ChatInviteName
    case ChatBackgroundChanged => ChatBackgroundChangedName
    case ChatTitleChanged => ChatTitleChangedName
    case ChatIconChanged => ChatIconChangedName
    case VcStart => VcStartName
    case VideoChatStart => VideoChatStartName
    case AvatarChatStart => AvatarChatStartName
    case VcEnd => VcEndName
    case VideoChatEnd => VideoChatEndName
    case AvatarChatEnd => AvatarChatEndName
    case ChatContentChanged => ChatContentChangedName
    case ScreenRoomStart => ScreenRoomStartName
    case ScreenRoomEnd => ScreenRoomEndName
    case ChatHostTransfered => ChatHostTransferedName
    case TextMessageForceRemoved => TextMessageForceRemovedName
    case ChatRemovedMessage => ChatRemovedMessageName
    case ModDeletedMessage => ModDeletedMessageName
    case ChatTip => ChatTipName
    case ChatPinAnnouncement => ChatPinAnnouncementName
    case VcPermissionOpenToEveryone => VcPermissionOpenToEveryoneName
    case VcPermissionInvitedAndRequested => VcPermissionInvitedAndRequestedName
    case VcPermissionInviteOnly => VcPermissionInviteOnlyName
    case ChatViewOnlyEnabled => ChatViewOnlyEnabledName
    case ChatViewOnlyDisabled => ChatViewOnlyDisabledName
    case ChatUnpinAnnouncement => ChatUnpinAnnouncementName
    case ChatTippingEnabled => ChatTippingEnabledName
    case ChatTippingDisabled => ChatTippingDisabledName
    case TimestampMessage => TimestampMessageName
    case WelcomeMessage => WelcomeMessageName
    case InviteMessage => InviteMessageName
  }

  /**
   * The event a name spells, if any: the inverse of `Name`, deciding on the
   * length of the name first.
   */
  function FromName(s: string): Option<ChatEvent> {
    if |s| < 19 then
      if |s| < 14 then
        if |s| < 11 then
          if |s| < 8 then
            if s == VcEndName then Some(VcEnd)
            else None
          else
            if s == ChatTipName then Some(ChatTip)
            else if s == VcStartName then Some(VcStart)
            else None
        else
          if |s| < 12 then
            if s == ChatInviteName then Some(ChatInvite)
            else if s == MemberJoinName then Some(MemberJoin)
            else None
          else
            if |s| < 13 then
              if s == MemberLeaveName then Some(MemberLeave)
              else if s == TextMessageName then Some(TextMessage)
              else None
            else
              if s == ImageMessageName then Some(ImageMessage)
              else if s == VoiceMessageName then Some(VoiceMessage)
              else None
      else
        if |s| < 16 then
          if |s| < 15 then
            if s == DeleteMessageName then Some(DeleteMessage)
            else if s == InviteMessageName then Some(InviteMessage)
            else if s == StrikeMessageName then Some(StrikeMessage)
            else if s == VideoChatEndName then Some(VideoChatEnd)
            else None
          else
            if s == AvatarChatEndName then Some(AvatarChatEnd)
            else if s == ScreenRoomEndName then Some(ScreenRoomEnd)
            else if s == StickerMessageName then Some(StickerMessage)
            else if s == VcNotAnsweredName then Some(VcNotAnswered)
            else if s == VcNotDeclinedName then Some(VcNotDeclined)
            else if s == WelcomeMessageName then Some(WelcomeMessage)
            else if s == YoutubeMessageName then Some(YoutubeMessage)
            else None
        else
          if |s| < 17 then
            if s == VcNotCancelledName then Some(VcNotCancelled)
            else if s == VideoChatStartName then Some(VideoChatStart)
            else None
          else
            if |s| < 18 then
              if s == AvatarChatStartName then Some(AvatarChatStart)
              else if s == ChatIconChangedName then Some(ChatIconChanged)
              else if s == ScreenRoomStartName then Some(ScreenRoomStart)
              else if s == TimestampMessageName then Some(TimestampMessage)
              else None
            else
              if s == ChatTitleChangedName then Some(ChatTitleChanged)
              else None
    else
      if |s| < 24 then
        if |s| < 21 then
          if |s| < 20 then
            if s == ModDeletedMessageName then Some(ModDeletedMessage)
            else if s == ShareExurlMessageName then Some(ShareExurlMessage)
            else None
          else
            if s == ChatContentChangedName then Some(ChatContentChanged)
            else if s == ChatHostTransferedName then Some(ChatHostTransfered)
            else if s == ChatRemovedMessageName then Some(ChatRemovedMessage)
            else if s == ChatTippingEnabledName then Some(ChatTippingEnabled)
            else None
        else
          if |s| < 22 then
            if s == ChatPinAnnouncementName then Some(ChatPinAnnouncement)
            else if s == ChatTippingDisabledName then Some(ChatTippingDisabled)
            else None
          else
            if |s| < 23 then
              if s == ChatViewOnlyEnabledName then Some(ChatViewOnlyEnabled)
              else None
            else
              if s == ChatBackgroundChangedName then Some(ChatBackgroundChanged)
              else if s == ChatUnpinAnnouncementName then Some(ChatUnpinAnnouncement)
              else if s == ChatViewOnlyDisabledName then Some(ChatViewOnlyDisabled)
              else if s == VideoChatNotAnsweredName then Some(VideoChatNotAnswered)
              else if s == VideoChatNotDeclinedName then Some(VideoChatNotDeclined)
              else None
      else
        if |s| < 26 then
          if |s| < 25 then
            if s == AvatarChatNotAnsweredName then Some(AvatarChatNotAnswered)
            else if s == AvatarChatNotDeclinedName then Some(AvatarChatNotDeclined)
            else if s == VideoChatNotCancelledName then Some(VideoChatNotCancelled)
            else None
          else
            if s == AvatarChatNotCancelledName then Some(AvatarChatNotCancelled)
            else if s == VcPermissionInviteOnlyName then Some(VcPermissionInviteOnly)
            else None
        else
          if |s| < 30 then
            if s == TextMessageForceRemovedName then Some(TextMessageForceRemoved)
            else None
          else
            if |s| < 35 then
              if s == VcPermissionOpenToEveryoneName then Some(VcPermissionOpenToEveryone)
              else None
            else
              if s == VcPermissionInvitedAndRequestedName then Some(VcPermissionInvitedAndRequested)
              else None
  }

  /** Every event name reads back as its event. */
  lemma NameRoundTrip(e: ChatEvent)
    ensures FromName(Name(e)) == Some(e)
  {
    if Position(e) < 7 {
      NameRoundTripBand0(e);
    } else if Position(e) < 14 {
      NameRoundTripBand1(e);
    } else if Position(e) < 21 {
      NameRoundTripBand2(e);
    } else if Position(e) < 28 {
      NameRoundTripBand3(e);
    } else if Position(e) < 35 {
      NameRoundTripBand4(e);
    } else if Position(e) < 42 {
      NameRoundTripBand5(e);
    } else {
      NameRoundTripBand6(e);
    }
  }

  /** `NameRoundTrip` for the events at table positions 0 to 6. */
  lemma NameRoundTripBand0(e: ChatEvent)
    requires Position(e) < 7
    ensures FromName(Name(e)) == Some(e)
  {
  }

  /** `NameRoundTrip` for the events at table positions 7 to 13. */
  lemma NameRoundTripBand1(e: ChatEvent)
    requires 7 <= Position(e) < 14
    ensures FromName(Name(e)) == Some(e)
  {
  }

  /** `NameRoundTrip` for the events at table positions 14 to 20. */
  lemma NameRoundTripBand2(e: ChatEvent)
    requires 14 <= Position(e) < 21
    ensures FromName(Name(e)) == Some(e)
  {
  }

  /** `NameRoundTrip` for the events at table positions 21 to 27. */
  lemma NameRoundTripBand3(e: ChatEvent)
    requires 21 <= Position(e) < 28
    ensures FromName(Name(e)) == Some(e)
  {
  }

  /** `NameRoundTrip` for the events at table positions 28 to 34. */
  lemma NameRoundTripBand4(e: ChatEvent)
    requires 28 <= Position(e) < 35
    ensures FromName(Name(e)) == Some(e)
  {
  }

  /** `NameRoundTrip` for the events at table positions 35 to 41. */
  lemma NameRoundTripBand5(e: ChatEvent)
    requires 35 <= Position(e) < 42
    ensures FromName(Name(e)) == Some(e)
  {
  }

  /** `NameRoundTrip` for the events at table positions 42 to 48. */
  lemma NameRoundTripBand6(e: ChatEvent)
    requires 42 <= Position(e)
    ensures FromName(Name(e)) == Some(e)
  {
  }

  /** The event names are pairwise distinct, so the table is injective. */
  lemma NamesDistinct(a: ChatEvent, b: ChatEvent)
    ensures Name(a) == Name(b) ==> a == b
  {
    NameRoundTrip(a);
    NameRoundTrip(b);
  }

  /** The message type and media type of an event. */
  function Kind(e: ChatEvent): (nat, nat) {
    match e
    case TextMessage => (0, 0)
    case ImageMessage => (0, 100)
    case YoutubeMessage => (0, 103)
    case StrikeMessage => (1, 0)
    case VoiceMessage => (2, 110)
    case StickerMessage => (3, 113)
    case ShareExurlMessage => (50, 0)
    case VcNotAnswered => (52, 0)
    case VcNotCancelled => (53, 0)
    case VcNotDeclined => (54, 0)
    case VideoChatNotAnswered => (55, 0)
    case VideoChatNotCancelled => (56, 0)
    case VideoChatNotDeclined => (57, 0)
    case AvatarChatNotAnswered => (58, 0)
    case AvatarChatNotCancelled => (59, 0)
    case AvatarChatNotDeclined => (60, 0)
    case DeleteMessage => (100, 0)
    case MemberJoin => (101, 0)
    case MemberLeave => (102, 0)
    case ChatInvite => (103, 0)
    case ChatBackgroundChanged => (104, 0)
    case ChatTitleChanged => (105, 0)
    case ChatIconChanged => (106, 0)
    case VcStart => (107, 0)
    case VideoChatStart => (108, 0)
    case AvatarChatStart => (109, 0)
    case VcEnd => (110, 0)
    case VideoChatEnd => (111, 0)
    case AvatarChatEnd => (112, 0)
    case ChatContentChanged => (113, 0)
    case ScreenRoomStart => (114, 0)
    case ScreenRoomEnd => (115, 0)
    case ChatHostTransfered => (116, 0)
    case TextMessageForceRemoved => (117, 0)
    case ChatRemovedMessage => (118, 0)
    case ModDeletedMessage => (119, 0)
    case ChatTip => (120, 0)
    case ChatPinAnnouncement => (121, 0)
    case VcPermissionOpenToEveryone => (122, 0)
    case VcPermissionInvitedAndRequested => (123, 0)
    case VcPermissionInviteOnly => (124, 0)
    case ChatViewOnlyEnabled => (125, 0)
    case ChatViewOnlyDisabled => (126, 0)
    case ChatUnpinAnnouncement => (127, 0)
    case ChatTippingEnabled => (128, 0)
    case ChatTippingDisabled => (129, 0)
    case TimestampMessage => (65281, 0)
    case WelcomeMessage => (65282, 0)
    case InviteMessage => (65283, 0)
  }

  /**
   * The event with this message type and media type, if any: the inverse of
   * `Kind`, written as a search tree over the kinds in ascending order.
   */
  function FromKind(t: nat, m: nat): Option<ChatEvent> {
    if t < 108 then
      if t < 57 then
        if t < 50 then
          if t < 1 then
            if t < 0 || (t == 0 && m < 100) then
              if (t, m) == (0, 0) then Some(TextMessage) else None
            else
              if t < 0 || (t == 0 && m < 103) then
                if (t, m) == (0, 100) then Some(ImageMessage) else None
              else
                if (t, m) == (0, 103) then Some(YoutubeMessage) else None
          else
            if t < 2 || (t == 2 && m < 110) then
              if (t, m) == (1, 0) then Some(StrikeMessage) else None
            else
              if t < 3 || (t == 3 && m < 113) then
                if (t, m) == (2, 110) then Some(VoiceMessage) else None
              else
                if (t, m) == (3, 113) then Some(StickerMessage) else None
        else
          if t < 54 then
            if t < 52 then
              if (t, m) == (50, 0) then Some(ShareExurlMessage) else None
            else
              if t < 53 then
                if (t, m) == (52, 0) then Some(VcNotAnswered) else None
              else
                if (t, m) == (53, 0) then Some(VcNotCancelled) else None
          else
            if t < 55 then
              if (t, m) == (54, 0) then Some(VcNotDeclined) else None
            else
              if t < 56 then
                if (t, m) == (55, 0) then Some(VideoChatNotAnswered) else None
              else
                if (t, m) == (56, 0) then Some(VideoChatNotCancelled) else None
      else
        if t < 102 then
          if t < 60 then
            if t < 58 then
              if (t, m) == (57, 0) then Some(VideoChatNotDeclined) else None
            else
              if t < 59 then
                if (t, m) == (58, 0) then Some(AvatarChatNotAnswered) else None
              else
                if (t, m) == (59, 0) then Some(AvatarChatNotCancelled) else None
          else
            if t < 100 then
              if (t, m) == (60, 0) then Some(AvatarChatNotDeclined) else None
            else
              if t < 101 then
                if (t, m) == (100, 0) then Some(DeleteMessage) else None
              else
                if (t, m) == (101, 0) then Some(MemberJoin) else None
        else
          if t < 105 then
            if t < 103 then
              if (t, m) == (102, 0) then Some(MemberLeave) else None
            else
              if t < 104 then
                if (t, m) == (103, 0) then Some(ChatInvite) else None
              else
                if (t, m) == (104, 0) then Some(ChatBackgroundChanged) else None
          else
            if t < 106 then
              if (t, m) == (105, 0) then Some(ChatTitleChanged) else None
            else
              if t < 107 then
                if (t, m) == (106, 0) then Some(ChatIconChanged) else None
              else
                if (t, m) == (107, 0) then Some(VcStart) else None
    else
      if t < 120 then
        if t < 114 then
          if t < 111 then
            if t < 109 then
              if (t, m) == (108, 0) then Some(VideoChatStart) else None
            else
              if t < 110 then
                if (t, m) == (109, 0) then Some(AvatarChatStart) else None
              else
                if (t, m) == (110, 0) then Some(VcEnd) else None
          else
            if t < 112 then
              if (t, m) == (111, 0) then Some(VideoChatEnd) else None
            else
              if t < 113 then
                if (t, m) == (112, 0) then Some(AvatarChatEnd) else None
              else
                if (t, m) == (113, 0) then Some(ChatContentChanged) else None
        else
          if t < 117 then
            if t < 115 then
              if (t, m) == (114, 0) then Some(ScreenRoomStart) else None
            else
              if t < 116 then
                if (t, m) == (115, 0) then Some(ScreenRoomEnd) else None
              else
                if (t, m) == (116, 0) then Some(ChatHostTransfered) else None
          else
            if t < 118 then
              if (t, m) == (117, 0) then Some(TextMessageForceRemoved) else None
            else
              if t < 119 then
                if (t, m) == (118, 0) then Some(ChatRemovedMessage) else None
              else
                if (t, m) == (119, 0) then Some(ModDeletedMessage) else None
      else
        if t < 126 then
          if t < 123 then
            if t < 121 then
              if (t, m) == (120, 0) then Some(ChatTip) else None
            else
              if t < 122 then
                if (t, m) == (121, 0) then Some(ChatPinAnnouncement) else None
              else
                if (t, m) == (122, 0) then Some(VcPermissionOpenToEveryone) else None
          else
            if t < 124 then
              if (t, m) == (123, 0) then Some(VcPermissionInvitedAndRequested) else None
            else
              if t < 125 then
                if (t, m) == (124, 0) then Some(VcPermissionInviteOnly) else None
              else
                if (t, m) == (125, 0) then Some(ChatViewOnlyEnabled) else None
        else
          if t < 129 then
            if t < 127 then
              if (t, m) == (126, 0) then Some(ChatViewOnlyDisabled) else None
            else
              if t < 128 then
                if (t, m) == (127, 0) then Some(ChatUnpinAnnouncement) else None
              else
                if (t, m) == (128, 0) then Some(ChatTippingEnabled) else None
          else
            if t < 65282 then
              if t < 65281 then
                if (t, m) == (129, 0) then Some(ChatTippingDisabled) else None
              else
                if (t, m) == (65281, 0) then Some(TimestampMessage) else None
            else
              if t < 65283 then
                if (t, m) == (65282, 0) then Some(WelcomeMessage) else None
              else
                if (t, m) == (65283, 0) then Some(InviteMessage) else None
  }

  /** Every event's kind reads back as the event. */
  lemma KindRoundTrip(e: ChatEvent)
    ensures FromKind(Kind(e).0, Kind(e).1) == Some(e)
  {
    if Position(e) < 12 {
      KindRoundTripBand0(e);
    } else if Position(e) < 24 {
      KindRoundTripBand1(e);
    } else if Position(e) < 36 {
      KindRoundTripBand2(e);
    } else {
      KindRoundTripBand3(e);
    }
  }

  /** `KindRoundTrip` for the events at table positions 0 to 11. */
  lemma KindRoundTripBand0(e: ChatEvent)
    requires Position(e) < 12
    ensures FromKind(Kind(e).0, Kind(e).1) == Some(e)
  {
  }

  /** `KindRoundTrip` for the events at table positions 12 to 23. */
  lemma KindRoundTripBand1(e: ChatEvent)
    requires 12 <= Position(e) < 24
    ensures FromKind(Kind(e).0, Kind(e).1) == Some(e)
  {
  }

  /** `KindRoundTrip` for the events at table positions 24 to 35. */
  lemma KindRoundTripBand2(e: ChatEvent)
    requires 24 <= Position(e) < 36
    ensures FromKind(Kind(e).0, Kind(e).1) == Some(e)
  {
  }

  /** `KindRoundTrip` for the events at table positions 36 to 48. */
  lemma KindRoundTripBand3(e: ChatEvent)
    requires 36 <= Position(e)
    ensures FromKind(Kind(e).0, Kind(e).1) == Some(e)
  {
  }

  /** The table key of an event: `"<type>:<mediaType>"` in decimal. */
  function Code(e: ChatEvent): (code: string)
    ensures ':' in code
  {
    Strings.Decimal(Kind(e).0) + ":" + Strings.Decimal(Kind(e).1)
  }

  /** A table key read as two decimal numbers around the first colon. */
  function ParseCode(code: string): (r: Option<(nat, nat)>)
    ensures r.Some? ==> ':' in code
  {
    var i := Strings.Find(code, ':');
    if i < 0 then None
    else
      var a := code[..i];
      var b := code[i + 1..];
      if a != [] && b != [] && Strings.AllDigits(a) && Strings.AllDigits(b)
      then Some((Strings.DigitsValue(a), Strings.DigitsValue(b)))
      else None
  }

  /** Every key has the form `"<int>:<int>"`: parsing a code gives back the event's kind. */
  lemma ParseCodeOfCode(e: ChatEvent)
    ensures ParseCode(Code(e)) == Some(Kind(e))
  {
    ParseJoined(Kind(e).0, Kind(e).1);
  }

  /** Two numbers printed around a colon parse back as the two numbers. */
  lemma ParseJoined(x: nat, y: nat)
    ensures ParseCode(Strings.Decimal(x) + ":" + Strings.Decimal(y)) == Some((x, y))
  {
    var a := Strings.Decimal(x);
    var b := Strings.Decimal(y);
    var code := a + ":" + b;
    assert ':' !in a;
    FindAfterDigits(a, b);
    assert code[..|a|] == a;
    assert code[|a| + 1..] == b;
    Strings.DecimalValue(x);
    Strings.DecimalValue(y);
  }

  /** In `a + ":" + b` with `a` all digits, the first colon follows `a`. */
  lemma {:induction false} FindAfterDigits(a: string, b: string)
    requires ':' !in a
    ensures Strings.Find(a + ":" + b, ':') == |a|
    decreases |a|
  {
    if a != [] {
      assert (a + ":" + b)[1..] == a[1..] + ":" + b;
      FindAfterDigits(a[1..], b);
    }
  }

  /** Distinct events have distinct keys. */
  lemma CodeInjective(x: ChatEvent, y: ChatEvent)
    ensures Code(x) == Code(y) ==> x == y
  {
    ParseCodeOfCode(x);
    ParseCodeOfCode(y);
    KindRoundTrip(x);
    KindRoundTrip(y);
  }

  /** `EVENT_TYPES.get(code)`, as the event rather than its name. */
  function EventOf(code: string): Option<ChatEvent> {
    match ParseCode(code)
    case None => None
    case Some(k) =>
      match FromKind(k.0, k.1)
      case None => None
      case Some(e) => if Code(e) == code then Some(e) else None
  }

  /** A code is a key of `EVENT_TYPES` exactly when it is some event's code. */
  lemma EventOfIff(code: string, e: ChatEvent)
    ensures EventOf(code) == Some(e) <==> code == Code(e)
  {
    if code == Code(e) {
      ParseCodeOfCode(e);
      KindRoundTrip(e);
    }
  }

  /** `EVENT_TYPES.get(code)`: the event name, or `None`. */
  function EventName(code: string): (r: Option<string>)
    ensures forall e :: r == Some(Name(e)) <==> code == Code(e)
  {
    forall e ensures EventOf(code) == Some(e) <==> code == Code(e) {
      EventOfIff(code, e);
    }
    forall e ensures EventOf(code).Some? && Name(EventOf(code).value) == Name(e) <==> EventOf(code) == Some(e) {
      if EventOf(code).Some? { NamesDistinct(EventOf(code).value, e); }
    }
    match EventOf(code)
    case None => None
    case Some(e) => Some(Name(e))
  }

  /** The number of entries of `EVENT_TYPES`. */
  const EventCount: nat := 49

  /** The position of an event in `EVENT_TYPES`. */
  function Position(e: ChatEvent): (i: nat)
    ensures i < EventCount
  {
    match e
    case TextMessage => 0
    case ImageMessage => 1
    case YoutubeMessage => 2
    case StrikeMessage => 3
    case VoiceMessage => 4
    case StickerMessage => 5
    case ShareExurlMessage => 6
    case VcNotAnswered => 7
    case VcNotCancelled => 8
    case VcNotDeclined => 9
    case VideoChatNotAnswered => 10
    case VideoChatNotCancelled => 11
    case VideoChatNotDeclined => 12
    case AvatarChatNotAnswered => 13
    case AvatarChatNotCancelled => 14
    case AvatarChatNotDeclined => 15
    case DeleteMessage => 16
    case MemberJoin => 17
    case MemberLeave => 18
    case ChatInvite => 19
    case ChatBackgroundChanged => 20
    case ChatTitleChanged => 21
    case ChatIconChanged => 22
    case VcStart => 23
    case VideoChatStart => 24
    case AvatarChatStart => 25
    case VcEnd => 26
    case VideoChatEnd => 27
    case AvatarChatEnd => 28
    case ChatContentChanged => 29
    case ScreenRoomStart => 30
    case ScreenRoomEnd => 31
    case ChatHostTransfered => 32
    case TextMessageForceRemoved => 33
    case ChatRemovedMessage => 34
    case ModDeletedMessage => 35
    case ChatTip => 36
    case ChatPinAnnouncement => 37
    case VcPermissionOpenToEveryone => 38
    case VcPermissionInvitedAndRequested => 39
    case VcPermissionInviteOnly => 40
    case ChatViewOnlyEnabled => 41
    case ChatViewOnlyDisabled => 42
    case ChatUnpinAnnouncement => 43
    case ChatTippingEnabled => 44
    case ChatTippingDisabled => 45
    case TimestampMessage => 46
    case WelcomeMessage => 47
    case InviteMessage => 48
  }

  /** The event at a position of `EVENT_TYPES`: the inverse of `Position`, as a search tree. */
  function EventAt(i: nat): ChatEvent
    requires i < EventCount
  {
    if i < 24 then
      if i < 12 then
        if i < 6 then
          if i < 3 then
            if i < 1 then
              TextMessage
            else
              if i < 2 then
                ImageMessage
              else
                YoutubeMessage
          else
            if i < 4 then
              StrikeMessage
            else
              if i < 5 then
                VoiceMessage
              else
                StickerMessage
        else
          if i < 9 then
            if i < 7 then
              ShareExurlMessage
            else
              if i < 8 then
                VcNotAnswered
              else
                VcNotCancelled
          else
            if i < 10 then
              VcNotDeclined
            else
              if i < 11 then
                VideoChatNotAnswered
              else
                VideoChatNotCancelled
      else
        if i < 18 then
          if i < 15 then
            if i < 13 then
              VideoChatNotDeclined
            else
              if i < 14 then
                AvatarChatNotAnswered
              else
                AvatarChatNotCancelled
          else
            if i < 16 then
              AvatarChatNotDeclined
            else
              if i < 17 then
                DeleteMessage
              else
                MemberJoin
        else
          if i < 21 then
            if i < 19 then
              MemberLeave
            else
              if i < 20 then
                ChatInvite
              else
                ChatBackgroundChanged
          else
            if i < 22 then
              ChatTitleChanged
            else
              if i < 23 then
                ChatIconChanged
              else
                VcStart
    else
      if i < 36 then
        if i < 30 then
          if i < 27 then
            if i < 25 then
              VideoChatStart
            else
              if i < 26 then
                AvatarChatStart
              else
                VcEnd
          else
            if i < 28 then
              VideoChatEnd
            else
              if i < 29 then
                AvatarChatEnd
              else
                ChatContentChanged
        else
          if i < 33 then
            if i < 31 then
              ScreenRoomStart
            else
              if i < 32 then
                ScreenRoomEnd
              else
                ChatHostTransfered
          else
            if i < 34 then
              TextMessageForceRemoved
            else
              if i < 35 then
                ChatRemovedMessage
              else
                ModDeletedMessage
      else
        if i < 42 then
          if i < 39 then
            if i < 37 then
              ChatTip
            else
              if i < 38 then
                ChatPinAnnouncement
              else
                VcPermissionOpenToEveryone
          else
            if i < 40 then
              VcPermissionInvitedAndRequested
            else
              if i < 41 then
                VcPermissionInviteOnly
              else
                ChatViewOnlyEnabled
        else
          if i < 45 then
            if i < 43 then
              ChatViewOnlyDisabled
            else
              if i < 44 then
                ChatUnpinAnnouncement
              else
                ChatTippingEnabled
          else
            if i < 47 then
              if i < 46 then
                ChatTippingDisabled
              else
                TimestampMessage
            else
              if i < 48 then
                WelcomeMessage
              else
                InviteMessage
  }

  lemma PositionRoundTrip(e: ChatEvent)
    ensures EventAt(Position(e)) == e
  {
    if Position(e) < 12 {
      PositionRoundTripBand0(e);
    } else if Position(e) < 24 {
      PositionRoundTripBand1(e);
    } else if Position(e) < 36 {
      PositionRoundTripBand2(e);
    } else {
      PositionRoundTripBand3(e);
    }
  }

  /** `PositionRoundTrip` for the events at table positions 0 to 11. */
  lemma PositionRoundTripBand0(e: ChatEvent)
    requires Position(e) < 12
    ensures EventAt(Position(e)) == e
  {
  }

  /** `PositionRoundTrip` for the events at table positions 12 to 23. */
  lemma PositionRoundTripBand1(e: ChatEvent)
    requires 12 <= Position(e) < 24
    ensures EventAt(Position(e)) == e
  {
  }

  /** `PositionRoundTrip` for the events at table positions 24 to 35. */
  lemma PositionRoundTripBand2(e: ChatEvent)
    requires 24 <= Position(e) < 36
    ensures EventAt(Position(e)) == e
  {
  }

  /** `PositionRoundTrip` for the events at table positions 36 to 48. */
  lemma PositionRoundTripBand3(e: ChatEvent)
    requires 36 <= Position(e)
    ensures EventAt(Position(e)) == e
  {
  }

  lemma {:induction false} EventAtRoundTrip(i: nat)
    requires i < EventCount
    ensures Position(EventAt(i)) == i
  {
  }

  /** The events of `EVENT_TYPES`, in table order. */
  function EventTable(): (r: seq<ChatEvent>)
    ensures |r| == EventCount
  {
    seq(EventCount, i requires 0 <= i < EventCount => EventAt(i))
  }

  /** Every event has exactly one place in the table. */
  lemma EventTablePlaces(e: ChatEvent)
    ensures |EventTable()| == EventCount
    ensures EventTable()[Position(e)] == e
    ensures forall i :: 0 <= i < |EventTable()| && EventTable()[i] == e ==> i == Position(e)
  {
    PositionRoundTrip(e);
    forall i | 0 <= i < |EventTable()| && EventTable()[i] == e
      ensures i == Position(e)
    {
      EventAtRoundTrip(i);
    }
  }


  /** `"0:0"` is a text message. */
  lemma TextMessageCode()
    ensures EventName("0:0") == Some("text_message")
  {
    assert Code(TextMessage) == "0:0";
    EventOfIff("0:0", TextMessage);
  }

  /** `"101:0"` is a member joining. */
  lemma MemberJoinCode()
    ensures EventName("101:0") == Some("member_join")
  {
    assert Strings.Decimal(10) == "10";
    assert Strings.Decimal(101) == Strings.Decimal(10) + "1";
    assert Code(MemberJoin) == "101:0";
    EventOfIff("101:0", MemberJoin);
  }

  /** `"102:0"` is a member leaving. */
  lemma MemberLeaveCode()
    ensures EventName("102:0") == Some("member_leave")
  {
    assert Strings.Decimal(10) == "10";
    assert Strings.Decimal(102) == Strings.Decimal(10) + "2";
    assert Code(MemberLeave) == "102:0";
    EventOfIff("102:0", MemberLeave);
  }

  /** `"0:1"` is no event. */
  lemma UnknownCode()
    ensures EventName("0:1") == None
  {
    assert ParseCode("0:1") == Some((0, 1)) by {
      assert Strings.Find("0:1", ':') == 1;
      assert "0:1"[..1] == "0";
      assert "0:1"[2..] == "1";
    }
  }

  /** `NOTIF_TYPES.get(t)`: a name for the notification types 53, 67 and 68 only. */
  function NotifType(t: int): (r: Option<string>)
    ensures r.Some? <==> t in {53, 67, 68}
  {
    if t == 53 then Some("member_set_you_host")
    else if t == 67 then Some("member_set_you_cohost")
    else if t == 68 then Some("member_remove_your_cohost")
    else None
  }

  /** No two notification types share a name. */
  lemma NotifNamesDistinct(t: int, u: int)
    requires NotifType(t).Some? && NotifType(t) == NotifType(u)
    ensures t == u
  {
  }
}
