/**
 * `APIException`: the table from API status codes to typed errors, and the
 * constructor that looks a response up in it, builds the typed error inside
 * `suppress(Exception)`, and then always raises `API_ERROR`.
 */
module ApiErrors {
  import opened Wrappers
  import opened JsonValues

  /** The typed errors of `exception_map`, in table order. */
  datatype ApiError =
    | UnsupportedService
    | InternalServerError
    | FileTooLarge
    | InvalidRequest
    | InvalidSession
    | AccessDenied
    | UnexistentData
    | ActionNotAllowed
    | ServiceUnderMaintenance
    | MessageNeeded
    | InvalidAccountOrPassword
    | AccountDisabled
    | EmailAlreadyTaken
    | AccountDoesNotExist
    | InvalidDevice
    | AccountLimitReached
    | CantFollowYourself
    | UserUnavailable
    | YouAreBanned
    | UserNotMemberOfCommunity
    | RequestRejected
    | ActivateAccount
    | CantLeaveCommunity
    | ReachedTitleLength
    | EmailFlaggedAsSpam
    | UserHasBeenDeleted
    | AccountDeleted
    | ReachedMaxTitles
    | VerificationRequired
    | UserBannedByTeamAmino
    | BadImage
    | RequestedNoLongerExists
    | InsufficientLevel
    | YouAreBlockedByThisUser
    | YouHaveBlockedThisUser
    | BlockedByOrganizer
    | NoLongerExists
    | WallCommentingDisabled
    | CommunityNoLongerExists
    | InvalidCodeOrLink
    | CommunityNameAlreadyTaken
    | CommunityCreateLimitReached
    | CommunityDisabled
    | CommunityDeleted
    | DataNoLongerExists
    | TooManyInviteUsers
    | ChatInvitesDisabled
    | RemovedFromChat
    | UserNotJoined
    | LevelFiveRequiredToEnableProps
    | ChatViewOnly
    | ChatMessageTooBig
    | InviteCodeNotFound
    | AlreadyRequestedJoinCommunity
    | AlreadyCheckedIn
    | AlreadyUsedMonthlyRepair
    | AccountAlreadyRestored
    | IncorrectVerificationCode
    | NotOwnerOfChatBubble
    | NotEnoughCoins
    | AlreadyPlayedLottery
    | CannotSendCoins
    | AminoIDAlreadyChanged
    | InvalidAminoID
    | InvalidName

  /** The status code `exception_map` files each error under. */
  function StatusCode(e: ApiError): int {
    match e
    case UnsupportedService => 100
    case InternalServerError => 101
    case FileTooLarge => 102
    case InvalidRequest => 103
    case InvalidSession => 105
    case AccessDenied => 106
    case UnexistentData => 107
    case ActionNotAllowed => 110
    case ServiceUnderMaintenance => 111
    case MessageNeeded => 113
    case InvalidAccountOrPassword => 200
    case AccountDisabled => 210
    case EmailAlreadyTaken => 215
    case AccountDoesNotExist => 216
    case InvalidDevice => 218
    case AccountLimitReached => 219
    case CantFollowYourself => 221
    case UserUnavailable => 225
    case YouAreBanned => 229
    case UserNotMemberOfCommunity => 230
    case RequestRejected => 235
    case ActivateAccount => 238
    case CantLeaveCommunity => 239
    case ReachedTitleLength => 240
    case EmailFlaggedAsSpam => 241
    case UserHasBeenDeleted => 245
    case AccountDeleted => 246
    case ReachedMaxTitles => 262
    case VerificationRequired => 270
    case UserBannedByTeamAmino => 293
    case BadImage => 300
    case RequestedNoLongerExists => 500
    case InsufficientLevel => 551
    case YouAreBlockedByThisUser => 603
    case YouHaveBlockedThisUser => 604
    case BlockedByOrganizer => 606
    case NoLongerExists => 700
    case WallCommentingDisabled => 702
    case CommunityNoLongerExists => 801
    case InvalidCodeOrLink => 802
    case CommunityNameAlreadyTaken => 805
    case CommunityCreateLimitReached => 806
    case CommunityDisabled => 814
    case CommunityDeleted => 833
    case DataNoLongerExists => 1600
    case TooManyInviteUsers => 1606
    case ChatInvitesDisabled => 1611
    case RemovedFromChat => 1612
    case UserNotJoined => 1613
    case LevelFiveRequiredToEnableProps => 1661
    case ChatViewOnly => 1663
    case ChatMessageTooBig => 1664
    case InviteCodeNotFound => 1900
    case AlreadyRequestedJoinCommunity => 2001
    case AlreadyCheckedIn => 2601
    case AlreadyUsedMonthlyRepair => 2611
    case AccountAlreadyRestored => 2800
    case IncorrectVerificationCode => 3102
    case NotOwnerOfChatBubble => 3905
    case NotEnoughCoins => 4300
    case AlreadyPlayedLottery => 4400
    case CannotSendCoins => 4500
    case AminoIDAlreadyChanged => 6001
    case InvalidAminoID => 6002
    case InvalidName => 99001
  }

  /** `exception_map.get(code)`, written as a search tree over the codes in ascending order. */
  function ExceptionFor(code: int): (r: Option<ApiError>)
    ensures r.Some? ==> StatusCode(r.value) == code
  {
    if code < 551 then
      if code < 221 then
        if code < 111 then
          if code < 105 then
            ExceptionForBand0(code)
          else
            ExceptionForBand1(code)
        else
          if code < 215 then
            ExceptionForBand2(code)
          else
            ExceptionForBand3(code)
      else
        if code < 241 then
          if code < 235 then
            ExceptionForBand4(code)
          else
            ExceptionForBand5(code)
        else
          if code < 270 then
            ExceptionForBand6(code)
          else
            ExceptionForBand7(code)
    else
      if code < 1613 then
        if code < 805 then
          if code < 700 then
            ExceptionForBand8(code)
          else
            ExceptionForBand9(code)
        else
          if code < 1600 then
            ExceptionForBand10(code)
          else
            ExceptionForBand11(code)
      else
        if code < 2800 then
          if code < 1900 then
            ExceptionForBand12(code)
          else
            ExceptionForBand13(code)
        else
          if code < 4400 then
            ExceptionForBand14(code)
          else
            ExceptionForBand15(code)
  }

  /** The part of the search tree for the codes 100 to 103. */
  function ExceptionForBand0(code: int): (r: Option<ApiError>)
    ensures r.Some? ==> StatusCode(r.value) == code
  {
    if code < 102 then
      if code < 101 then
        if code == 100 then Some(UnsupportedService) else None
      else
        if code == 101 then Some(InternalServerError) else None
    else
      if code < 103 then
        if code == 102 then Some(FileTooLarge) else None
      else
        if code == 103 then Some(InvalidRequest) else None
  }

  /** The part of the search tree for the codes 105 to 110. */
  function ExceptionForBand1(code: int): (r: Option<ApiError>)
    ensures r.Some? ==> StatusCode(r.value) == code
  {
    if code < 107 then
      if code < 106 then
        if code == 105 then Some(InvalidSession) else None
      else
        if code == 106 then Some(AccessDenied) else None
    else
      if code < 110 then
        if code == 107 then Some(UnexistentData) else None
      else
        if code == 110 then Some(ActionNotAllowed) else None
  }

  /** The part of the search tree for the codes 111 to 210. */
  function ExceptionForBand2(code: int): (r: Option<ApiError>)
    ensures r.Some? ==> StatusCode(r.value) == code
  {
    if code < 200 then
      if code < 113 then
        if code == 111 then Some(ServiceUnderMaintenance) else None
      else
        if code == 113 then Some(MessageNeeded) else None
    else
      if code < 210 then
        if code == 200 then Some(InvalidAccountOrPassword) else None
      else
        if code == 210 then Some(AccountDisabled) else None
  }

  /** The part of the search tree for the codes 215 to 219. */
  function ExceptionForBand3(code: int): (r: Option<ApiError>)
    ensures r.Some? ==> StatusCode(r.value) == code
  {
    if code < 218 then
      if code < 216 then
        if code == 215 then Some(EmailAlreadyTaken) else None
      else
        if code == 216 then Some(AccountDoesNotExist) else None
    else
      if code < 219 then
        if code == 218 then Some(InvalidDevice) else None
      else
        if code == 219 then Some(AccountLimitReached) else None
  }

  /** The part of the search tree for the codes 221 to 230. */
  function ExceptionForBand4(code: int): (r: Option<ApiError>)
    ensures r.Some? ==> StatusCode(r.value) == code
  {
    if code < 229 then
      if code < 225 then
        if code == 221 then Some(CantFollowYourself) else None
      else
        if code == 225 then Some(UserUnavailable) else None
    else
      if code < 230 then
        if code == 229 then Some(YouAreBanned) else None
      else
        if code == 230 then Some(UserNotMemberOfCommunity) else None
  }

  /** The part of the search tree for the codes 235 to 240. */
  function ExceptionForBand5(code: int): (r: Option<ApiError>)
    ensures r.Some? ==> StatusCode(r.value) == code
  {
    if code < 239 then
      if code < 238 then
        if code == 235 then Some(RequestRejected) else None
      else
        if code == 238 then Some(ActivateAccount) else None
    else
      if code < 240 then
        if code == 239 then Some(CantLeaveCommunity) else None
      else
        if code == 240 then Some(ReachedTitleLength) else None
  }

  /** The part of the search tree for the codes 241 to 262. */
  function ExceptionForBand6(code: int): (r: Option<ApiError>)
    ensures r.Some? ==> StatusCode(r.value) == code
  {
    if code < 246 then
      if code < 245 then
        if code == 241 then Some(EmailFlaggedAsSpam) else None
      else
        if code == 245 then Some(UserHasBeenDeleted) else None
    else
      if code < 262 then
        if code == 246 then Some(AccountDeleted) else None
      else
        if code == 262 then Some(ReachedMaxTitles) else None
  }

  /** The part of the search tree for the codes 270 to 500. */
  function ExceptionForBand7(code: int): (r: Option<ApiError>)
    ensures r.Some? ==> StatusCode(r.value) == code
  {
    if code < 300 then
      if code < 293 then
        if code == 270 then Some(VerificationRequired) else None
      else
        if code == 293 then Some(UserBannedByTeamAmino) else None
    else
      if code < 500 then
        if code == 300 then Some(BadImage) else None
      else
        if code == 500 then Some(RequestedNoLongerExists) else None
  }

  /** The part of the search tree for the codes 551 to 606. */
  function ExceptionForBand8(code: int): (r: Option<ApiError>)
    ensures r.Some? ==> StatusCode(r.value) == code
  {
    if code < 604 then
      if code < 603 then
        if code == 551 then Some(InsufficientLevel) else None
      else
        if code == 603 then Some(YouAreBlockedByThisUser) else None
    else
      if code < 606 then
        if code == 604 then Some(YouHaveBlockedThisUser) else None
      else
        if code == 606 then Some(BlockedByOrganizer) else None
  }

  /** The part of the search tree for the codes 700 to 802. */
  function ExceptionForBand9(code: int): (r: Option<ApiError>)
    ensures r.Some? ==> StatusCode(r.value) == code
  {
    if code < 801 then
      if code < 702 then
        if code == 700 then Some(NoLongerExists) else None
      else
        if code == 702 then Some(WallCommentingDisabled) else None
    else
      if code < 802 then
        if code == 801 then Some(CommunityNoLongerExists) else None
      else
        if code == 802 then Some(InvalidCodeOrLink) else None
  }

  /** The part of the search tree for the codes 805 to 833. */
  function ExceptionForBand10(code: int): (r: Option<ApiError>)
    ensures r.Some? ==> StatusCode(r.value) == code
  {
    if code < 814 then
      if code < 806 then
        if code == 805 then Some(CommunityNameAlreadyTaken) else None
      else
        if code == 806 then Some(CommunityCreateLimitReached) else None
    else
      if code < 833 then
        if code == 814 then Some(CommunityDisabled) else None
      else
        if code == 833 then Some(CommunityDeleted) else None
  }

  /** The part of the search tree for the codes 1600 to 1612. */
  function ExceptionForBand11(code: int): (r: Option<ApiError>)
    ensures r.Some? ==> StatusCode(r.value) == code
  {
    if code < 1611 then
      if code < 1606 then
        if code == 1600 then Some(DataNoLongerExists) else None
      else
        if code == 1606 then Some(TooManyInviteUsers) else None
    else
      if code < 1612 then
        if code == 1611 then Some(ChatInvitesDisabled) else None
      else
        if code == 1612 then Some(RemovedFromChat) else None
  }

  /** The part of the search tree for the codes 1613 to 1664. */
  function ExceptionForBand12(code: int): (r: Option<ApiError>)
    ensures r.Some? ==> StatusCode(r.value) == code
  {
    if code < 1663 then
      if code < 1661 then
        if code == 1613 then Some(UserNotJoined) else None
      else
        if code == 1661 then Some(LevelFiveRequiredToEnableProps) else None
    else
      if code < 1664 then
        if code == 1663 then Some(ChatViewOnly) else None
      else
        if code == 1664 then Some(ChatMessageTooBig) else None
  }

  /** The part of the search tree for the codes 1900 to 2611. */
  function ExceptionForBand13(code: int): (r: Option<ApiError>)
    ensures r.Some? ==> StatusCode(r.value) == code
  {
    if code < 2601 then
      if code < 2001 then
        if code == 1900 then Some(InviteCodeNotFound) else None
      else
        if code == 2001 then Some(AlreadyRequestedJoinCommunity) else None
    else
      if code < 2611 then
        if code == 2601 then Some(AlreadyCheckedIn) else None
      else
        if code == 2611 then Some(AlreadyUsedMonthlyRepair) else None
  }

  /** The part of the search tree for the codes 2800 to 4300. */
  function ExceptionForBand14(code: int): (r: Option<ApiError>)
    ensures r.Some? ==> StatusCode(r.value) == code
  {
    if code < 3905 then
      if code < 3102 then
        if code == 2800 then Some(AccountAlreadyRestored) else None
      else
        if code == 3102 then Some(IncorrectVerificationCode) else None
    else
      if code < 4300 then
        if code == 3905 then Some(NotOwnerOfChatBubble) else None
      else
        if code == 4300 then Some(NotEnoughCoins) else None
  }

  /** The part of the search tree for the codes 4400 to 99001. */
  function ExceptionForBand15(code: int): (r: Option<ApiError>)
    ensures r.Some? ==> StatusCode(r.value) == code
  {
    if code < 6001 then
      if code < 4500 then
        if code == 4400 then Some(AlreadyPlayedLottery) else None
      else
        if code == 4500 then Some(CannotSendCoins) else None
    else
      if code < 6002 then
        if code == 6001 then Some(AminoIDAlreadyChanged) else None
      else
        if code < 99001 then
          if code == 6002 then Some(InvalidAminoID) else None
        else
          if code == 99001 then Some(InvalidName) else None
  }

  lemma {:induction false} ExceptionForIff(code: int, e: ApiError)
    ensures ExceptionFor(code) == Some(e) <==> code == StatusCode(e)
  {
    ExceptionForStatusCode(e);
  }

  lemma ExceptionForStatusCode(e: ApiError)
    ensures ExceptionFor(StatusCode(e)) == Some(e)
  {
    if StatusCode(e) < 111 {
      ExceptionForStatusCodeBand0(e);
    } else if StatusCode(e) < 221 {
      ExceptionForStatusCodeBand1(e);
    } else if StatusCode(e) < 241 {
      ExceptionForStatusCodeBand2(e);
    } else if StatusCode(e) < 551 {
      ExceptionForStatusCodeBand3(e);
    } else if StatusCode(e) < 805 {
      ExceptionForStatusCodeBand4(e);
    } else if StatusCode(e) < 1613 {
      ExceptionForStatusCodeBand5(e);
    } else if StatusCode(e) < 2800 {
      ExceptionForStatusCodeBand6(e);
    } else {
      ExceptionForStatusCodeBand7(e);
    }
  }

  /** `ExceptionForStatusCode` for status codes below 111. */
  lemma ExceptionForStatusCodeBand0(e: ApiError)
    requires StatusCode(e) < 111
    ensures ExceptionFor(StatusCode(e)) == Some(e)
  {
  }

  /** `ExceptionForStatusCode` for status codes 111 to 220. */
  lemma ExceptionForStatusCodeBand1(e: ApiError)
    requires 111 <= StatusCode(e) < 221
    ensures ExceptionFor(StatusCode(e)) == Some(e)
  {
  }

  /** `ExceptionForStatusCode` for status codes 221 to 240. */
  lemma ExceptionForStatusCodeBand2(e: ApiError)
    requires 221 <= StatusCode(e) < 241
    ensures ExceptionFor(StatusCode(e)) == Some(e)
  {
  }

  /** `ExceptionForStatusCode` for status codes 241 to 550. */
  lemma ExceptionForStatusCodeBand3(e: ApiError)
    requires 241 <= StatusCode(e) < 551
    ensures ExceptionFor(StatusCode(e)) == Some(e)
  {
  }

  /** `ExceptionForStatusCode` for status codes 551 to 804. */
  lemma ExceptionForStatusCodeBand4(e: ApiError)
    requires 551 <= StatusCode(e) < 805
    ensures ExceptionFor(StatusCode(e)) == Some(e)
  {
  }

  /** `ExceptionForStatusCode` for status codes 805 to 1612. */
  lemma ExceptionForStatusCodeBand5(e: ApiError)
    requires 805 <= StatusCode(e) < 1613
    ensures ExceptionFor(StatusCode(e)) == Some(e)
  {
  }

  /** `ExceptionForStatusCode` for status codes 1613 to 2799. */
  lemma ExceptionForStatusCodeBand6(e: ApiError)
    requires 1613 <= StatusCode(e) < 2800
    ensures ExceptionFor(StatusCode(e)) == Some(e)
  {
  }

  /** `ExceptionForStatusCode` for status codes from 2800 on. */
  lemma ExceptionForStatusCodeBand7(e: ApiError)
    requires 2800 <= StatusCode(e)
    ensures ExceptionFor(StatusCode(e)) == Some(e)
  {
  }

  /** The keys are distinct: no two errors share a status code. */
  lemma StatusCodesDistinct(a: ApiError, b: ApiError)
    ensures StatusCode(a) == StatusCode(b) ==> a == b
  {
    ExceptionForStatusCode(a);
    ExceptionForStatusCode(b);
  }

  /** Two entries checked against the table. */
  lemma SampleCodes()
    ensures ExceptionFor(105) == Some(InvalidSession)
    ensures ExceptionFor(200) == Some(InvalidAccountOrPassword)
    ensures ExceptionFor(104) == None
  {
  }

  /** The attributes `APIException.__init__` assigns before it raises. */
  datatype Attributes = Attributes(statusCode: Json, message: Json, url: Json)

  /** A raised exception: a typed error with its message, or `API_ERROR` with the response. */
  datatype Raised = Typed(error: ApiError, message: Json) | ApiErrorRaised(response: Json)

  /** The status code of a response, falling back to the whole response; non-dicts have none. */
  function StatusOf(response: Json): Json {
    if response.Object? then GetOr(response.members, "api:statuscode", response) else Null
  }

  /** The error the table maps a status value to: only an `int` that is a key. */
  function Classify(status: Json): (r: Option<ApiError>)
    ensures r.Some? ==> IsInt(status) && StatusCode(r.value) == IntValue(status)
    ensures IsInt(status) && ExceptionFor(IntValue(status)).Some? ==> r.Some?
  {
    if IsInt(status) then
      ExceptionFor(IntValue(status))
    else None
  }

  /**
   * `APIException(response)`. A non-dict response has no `get`: the
   * `AttributeError` is swallowed and only `API_ERROR` is raised. A dict
   * response reads status code and message (each defaulting to the whole
   * response) and url; a status code that is an `int` key of the table
   * builds its typed error, whose message gains `" (url)"` when the url is not
   * `None`; without `api:message` that message is the `repr` of the whole
   * response. That error is raised inside `suppress(Exception)` and swallowed,
   * so the constructor always ends by raising `API_ERROR(response)`.
   */
  method Construct(response: Json) returns (attrs: Attributes, swallowed: Option<Raised>, raised: Raised)
    ensures raised == ApiErrorRaised(response)
    ensures !response.Object? ==> attrs == Attributes(Null, Null, Null) && swallowed == None
    ensures response.Object? ==>
      && attrs.statusCode == GetOr(response.members, "api:statuscode", response)
      && attrs.url == GetOr(response.members, "url", Null)
    ensures swallowed.Some? <==> response.Object? && Classify(attrs.statusCode).Some?
    ensures swallowed.Some? ==>
      && swallowed.value == Typed(Classify(attrs.statusCode).value, attrs.message)
      && StatusCode(swallowed.value.error) == IntValue(attrs.statusCode)
    ensures response.Object? && Classify(attrs.statusCode).Some? && attrs.url != Null ==>
      attrs.message == String(Str(GetOr(response.members, "api:message", response)) + " (" + Str(attrs.url) + ")")
    ensures response.Object? && !HasKey(response.members, "api:message") && Classify(attrs.statusCode).Some? && attrs.url != Null ==>
      attrs.message == String(Repr(response) + " (" + Str(attrs.url) + ")")
    ensures response.Object? && (Classify(attrs.statusCode).None? || attrs.url == Null) ==>
      attrs.message == GetOr(response.members, "api:message", response)
  {
    attrs := Attributes(Null, Null, Null);
    swallowed := None;
    if response.Object? {
      var statusCode := GetOr(response.members, "api:statuscode", response);
      var message := GetOr(response.members, "api:message", response);
      var url := GetOr(response.members, "url", Null);
      var exception := Classify(statusCode);
      if exception.Some? {
        if url != Null {
          message := String(Str(message) + " (" + Str(url) + ")");
        }
        swallowed := Some(Typed(exception.value, message));
      }
      attrs := Attributes(statusCode, message, url);
    }
    raised := ApiErrorRaised(response);
  }

  /** A `bool` status code is an `int` in Python, but `True` and `False` are no keys. */
  lemma BoolStatusNeverMapped(b: bool)
    ensures Classify(Bool(b)).None?
  {
  }
}
