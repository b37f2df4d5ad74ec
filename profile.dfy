/** The profile screen's rules (web/src/views/ProfileView.tsx): nickname
    normalisation, validation and uniqueness, saving the name and bio, the
    services list, the hidden developer tap counter, and the way to the
    paywall through the login screen. */
module Profile {
  import opened Types
  import opened Text

  // ----- nicknames -----

  /** `[a-z0-9_]`. */
  predicate IsNicknameChar(c: char)
  {
    ('a' <= c <= 'z') || ('0' <= c <= '9') || c == '_'
  }

  predicate IsNicknameText(s: string)
  {
    forall i :: 0 <= i < |s| ==> IsNicknameChar(s[i])
  }

  /** `s.replace(/[^a-z0-9_]/g, '')`. */
  function KeepNicknameChars(s: string): (r: string)
    ensures IsNicknameText(r) && |r| <= |s|
  {
    if s == [] then []
    else if IsNicknameChar(s[0]) then [s[0]] + KeepNicknameChars(s[1..])
    else KeepNicknameChars(s[1..])
  }

  lemma {:induction false} KeepNicknameCharsFixed(s: string)
    requires IsNicknameText(s)
    ensures KeepNicknameChars(s) == s
  {
    if s != [] {
      KeepNicknameCharsFixed(s[1..]);
      assert s == [s[0]] + s[1..];
    }
  }

  /** What the nickname field keeps of what is typed (no trim). */
  function TypedNickname(typed: string): (r: string)
  {
    KeepNicknameChars(Lower(typed))
  }

  /** The nickname `handleSaveNickname` works with. */
  function NormalizeNickname(s: string): (r: string)
    ensures IsNicknameText(r) && |r| <= |s|
  {
    KeepNicknameChars(Lower(Trim(s)))
  }

  /** A normalised nickname holds only `[a-z0-9_]`, and normalising it
      again changes nothing; text typed into the field is already in that
      form. */
  lemma NormalizeNicknameIdempotent(s: string)
    ensures IsNicknameText(NormalizeNickname(s))
    ensures NormalizeNickname(NormalizeNickname(s)) == NormalizeNickname(s)
    ensures NormalizeNickname(TypedNickname(s)) == TypedNickname(s)
  {
    NicknameTextFixed(NormalizeNickname(s));
    NicknameTextFixed(TypedNickname(s));
  }

  /** Normalising text made only of `[a-z0-9_]` gives it back. */
  lemma NicknameTextFixed(r: string)
    requires IsNicknameText(r)
    ensures NormalizeNickname(r) == r
  {
    TrimFixed(r);
    assert Lower(r) == r;
    KeepNicknameCharsFixed(r);
  }

  const MinNicknameLength: int := 3
  const NicknameTooShortText: string := "Минимум 3 символа (a-z, 0-9, _)"
  const NicknameTakenText: string := "Этот никнейм уже занят"

  /** How `handleSaveNickname` ends. */
  datatype NicknameOutcome = TooShort | Unchanged | Taken | Saved(nick: string) | Skipped

  /** The decision `handleSaveNickname` takes for the normalised nickname
      `nick`, the ids of the users already holding it, and whether the
      store fails. */
  function NicknameDecision(u: User, nick: string, holders: seq<string>, fails: bool): NicknameOutcome
  {
    if |nick| < MinNicknameLength then TooShort
    else if u.nickname == Some(nick) then Unchanged
    else if !RealAccount(u) || fails then Skipped
    else if |holders| > 0 && holders[0] != u.id then Taken
    else Saved(nick)
  }

  /** The checks of `handleSaveNickname`, in the order the code makes them:
      length, no change, a signed-in account and a working store, then the
      first user found with the nickname. */
  method ChooseNicknameOutcome(u: User, nick: string, holders: seq<string>, fails: bool) returns (outcome: NicknameOutcome)
    ensures outcome == NicknameDecision(u, nick, holders, fails)
  {
    if nick == [] || |nick| < MinNicknameLength {
      return TooShort;
    }
    if u.nickname == Some(nick) {
      return Unchanged;
    }
    if u.id == "" || u.isGuest || fails {
      return Skipped;
    }
    if |holders| > 0 && holders[0] != u.id {
      return Taken;
    }
    outcome := Saved(nick);
  }

  /** A nickname is stored only for a real account, only in normalised form
      of at least three characters, only when it changes, and only when
      the user found first with it is the user themself; a nickname whose
      first holder is someone else is refused. */
  lemma NicknameSavedOnlyValid(u: User, typed: string, holders: seq<string>, fails: bool)
    ensures var d := NicknameDecision(u, NormalizeNickname(typed), holders, fails);
      && (d.Saved? ==> d.nick == NormalizeNickname(typed) && |d.nick| >= MinNicknameLength && IsNicknameText(d.nick)
                       && RealAccount(u) && !fails && u.nickname != Some(d.nick)
                       && (holders == [] || holders[0] == u.id))
      && (|NormalizeNickname(typed)| < MinNicknameLength <==> d == TooShort)
      && (RealAccount(u) && !fails && |holders| > 0 && holders[0] != u.id && d != TooShort && d != Unchanged ==> d == Taken)
  {
    var nick := NormalizeNickname(typed);
    assert IsNicknameText(nick);
  }

  /** Name, nickname, bio and services are written only for a signed-in
      account. */
  predicate RealAccount(u: User)
  {
    u.id != "" && !u.isGuest
  }

  /** `services.filter((_, i) => i !== idx)`. */
  function RemoveAt(s: seq<string>, idx: int): (r: seq<string>)
    ensures 0 <= idx < |s| ==> r == s[..idx] + s[idx + 1..]
    ensures !(0 <= idx < |s|) ==> r == s
  {
    if 0 <= idx < |s| then s[..idx] + s[idx + 1..] else s
  }

  /** Removing drops exactly the entry `idx`: one entry fewer, the entries
      before it in place, the ones after it one place earlier. */
  lemma RemoveAtShifts(s: seq<string>, idx: int)
    requires 0 <= idx < |s|
    ensures var r := RemoveAt(s, idx);
      && |r| == |s| - 1
      && (forall i :: 0 <= i < idx ==> r[i] == s[i])
      && (forall i :: idx <= i < |r| ==> r[i] == s[i + 1])
  {
  }

  /** The sub-screens of the profile (`currentMode`). */
  datatype Mode = ProfileMode | Settings | Languages | Status | Offer | Privacy | Contacts | PaywallMode | Login

  const DevTapsToUnlock: nat := 10

  /** The profile screen. `storedNames`, `storedNicknames`, `storedBios` and
      `storedServices` are the corresponding fields of the stored user
      records, by user id. */
  class ProfileScreen {
    var user: User
    var mode: Mode
    var devTapCount: nat
    var pendingPayment: bool
    var isEditingName: bool
    var newName: string
    var isEditingNickname: bool
    var newNickname: string
    var nicknameError: string
    var isEditingBio: bool
    var newBio: string
    var newService: string
    var services: seq<string>
    var storedNames: map<string, string>
    var storedNicknames: map<string, string>
    var storedBios: map<string, string>
    var storedServices: map<string, seq<string>>

    constructor (user: User, storedNicknames: map<string, string>)
      ensures this.user == user && mode == ProfileMode && devTapCount == 0 && !pendingPayment
      ensures newName == user.name && newNickname == (if user.nickname.Some? then user.nickname.value else "")
      ensures services == user.services && newService == "" && nicknameError == ""
      ensures this.storedNicknames == storedNicknames
      ensures storedNames == map[] && storedBios == map[] && storedServices == map[]
      ensures !isEditingName && !isEditingNickname && !isEditingBio
    {
      this.user := user;
      mode := ProfileMode;
      devTapCount := 0;
      pendingPayment := false;
      isEditingName := false;
      newName := user.name;
      isEditingNickname := false;
      newNickname := if user.nickname.Some? then user.nickname.value else "";
      nicknameError := "";
      isEditingBio := false;
      newBio := user.bio;
      newService := "";
      services := user.services;
      this.storedNames := map[];
      this.storedNicknames := storedNicknames;
      storedBios := map[];
      storedServices := map[];
    }

    /** Typing into the nickname field keeps only `[a-z0-9_]` after
        lower-casing and clears the error. */
    method TypeNickname(typed: string)
      modifies this
      ensures unchanged(this`user, this`storedNicknames, this`isEditingNickname)
      ensures unchanged(this`mode, this`devTapCount, this`pendingPayment)
      ensures unchanged(this`isEditingName, this`newName, this`isEditingBio)
      ensures unchanged(this`newBio, this`newService, this`services)
      ensures unchanged(this`storedNames, this`storedBios, this`storedServices)
      ensures newNickname == TypedNickname(typed) && nicknameError == ""
    {
      newNickname := KeepNicknameChars(Lower(typed));
      nicknameError := "";
    }

    /** `handleSaveName`: a blank or unchanged name puts the old name back;
        otherwise the trimmed name is taken, and stored for a real account
        unless that write fails. The editor closes either way. */
    method HandleSaveName(writeFails: bool)
      modifies this
      ensures unchanged(this`storedNicknames, this`services)
      ensures unchanged(this`mode, this`devTapCount, this`pendingPayment)
      ensures unchanged(this`isEditingNickname, this`newNickname, this`nicknameError)
      ensures unchanged(this`isEditingBio, this`newBio, this`newService)
      ensures unchanged(this`storedBios, this`storedServices)
      ensures !isEditingName
      ensures IsBlank(old(newName)) || old(newName) == old(user).name ==>
        newName == old(user).name && user == old(user) && storedNames == old(storedNames)
      ensures !(IsBlank(old(newName)) || old(newName) == old(user).name) ==>
        && user == old(user).(name := Trim(old(newName)))
        && newName == old(newName)
        && storedNames == (if RealAccount(old(user)) && !writeFails
                           then old(storedNames)[old(user).id := Trim(old(newName))] else old(storedNames))
    {
      var trimmed := Trim(newName);
      var u := user;
      var name := newName;
      var stored := storedNames;
      if trimmed == [] || newName == user.name {
        name := user.name;
      } else {
        u := user.(name := trimmed);
        if user.id != "" && !user.isGuest && !writeFails {
          stored := storedNames[user.id := trimmed];
        }
      }
      user := u;
      newName := name;
      storedNames := stored;
      isEditingName := false;
    }

    /** `handleSaveNickname`. `holders` are the ids of the stored users that
        already have the normalised nickname, in the order the query
        returns them; `fails` makes the query or the write fail. */
    method HandleSaveNickname(holders: seq<string>, fails: bool) returns (outcome: NicknameOutcome)
      requires forall h :: h in holders <==> h in storedNicknames && storedNicknames[h] == NormalizeNickname(newNickname)
      modifies this
      ensures unchanged(this`storedNames, this`services)
      ensures unchanged(this`mode, this`devTapCount, this`pendingPayment)
      ensures unchanged(this`isEditingName, this`newName, this`newNickname)
      ensures unchanged(this`isEditingBio, this`newBio, this`newService)
      ensures unchanged(this`storedBios, this`storedServices)
      ensures outcome == NicknameDecision(old(user), NormalizeNickname(old(newNickname)), holders, fails)
      ensures outcome.Saved? ==>
        user == old(user).(nickname := Some(outcome.nick)) && nicknameError == ""
        && storedNicknames == old(storedNicknames)[old(user).id := outcome.nick]
      ensures !outcome.Saved? ==> user == old(user) && storedNicknames == old(storedNicknames)
      ensures outcome.TooShort? ==> nicknameError == NicknameTooShortText && isEditingNickname == old(isEditingNickname)
      ensures outcome.Taken? ==> nicknameError == NicknameTakenText && isEditingNickname == old(isEditingNickname)
      ensures !outcome.TooShort? && !outcome.Taken? ==> !isEditingNickname
      ensures outcome.Unchanged? || outcome.Skipped? ==> nicknameError == old(nicknameError)
    {
      var nick := NormalizeNickname(newNickname);
      outcome := ChooseNicknameOutcome(user, nick, holders, fails);
      ApplyNicknameOutcome(outcome);
    }

    /** The fields `handleSaveNickname` sets for each outcome. */
    method ApplyNicknameOutcome(outcome: NicknameOutcome)
      modifies this
      ensures unchanged(this`storedNames, this`services)
      ensures unchanged(this`mode, this`devTapCount, this`pendingPayment)
      ensures unchanged(this`isEditingName, this`newName, this`newNickname)
      ensures unchanged(this`isEditingBio, this`newBio, this`newService)
      ensures unchanged(this`storedBios, this`storedServices)
      ensures outcome.Saved? ==>
        user == old(user).(nickname := Some(outcome.nick)) && nicknameError == ""
        && storedNicknames == old(storedNicknames)[old(user).id := outcome.nick]
      ensures !outcome.Saved? ==> user == old(user) && storedNicknames == old(storedNicknames)
      ensures outcome.TooShort? ==> nicknameError == NicknameTooShortText && isEditingNickname == old(isEditingNickname)
      ensures outcome.Taken? ==> nicknameError == NicknameTakenText && isEditingNickname == old(isEditingNickname)
      ensures !outcome.TooShort? && !outcome.Taken? ==> !isEditingNickname
      ensures outcome.Unchanged? || outcome.Skipped? ==> nicknameError == old(nicknameError)
    {
      var u := user;
      var stored := storedNicknames;
      var err := nicknameError;
      var editing := false;
      if outcome.TooShort? {
        err := NicknameTooShortText;
        editing := isEditingNickname;
      } else if outcome.Taken? {
        err := NicknameTakenText;
        editing := isEditingNickname;
      } else if outcome.Saved? {
        stored := storedNicknames[user.id := outcome.nick];
        u := user.(nickname := Some(outcome.nick));
        err := "";
      }
      storedNicknames := stored;
      user := u;
      nicknameError := err;
      isEditingNickname := editing;
    }

    /** `handleSaveBio`: the trimmed bio is stored and taken over for a real
        account when the write succeeds. */
    method HandleSaveBio(writeFails: bool)
      modifies this
      ensures unchanged(this`mode, this`devTapCount, this`pendingPayment)
      ensures unchanged(this`isEditingName, this`newName, this`isEditingNickname)
      ensures unchanged(this`newNickname, this`nicknameError, this`newBio)
      ensures unchanged(this`newService, this`storedNames, this`storedServices)
      ensures RealAccount(old(user)) && !writeFails ==>
        user == old(user).(bio := Trim(old(newBio))) && storedBios == old(storedBios)[old(user).id := Trim(old(newBio))]
      ensures !(RealAccount(old(user)) && !writeFails) ==> user == old(user) && storedBios == old(storedBios)
      ensures !isEditingBio && storedNicknames == old(storedNicknames) && services == old(services)
    {
      var bio := Trim(newBio);
      if user.id != "" && !user.isGuest && !writeFails {
        storedBios := storedBios[user.id := bio];
        user := user.(bio := bio);
      }
      isEditingBio := false;
    }

    /** `handleAddService`: a blank entry is ignored; otherwise the trimmed
        entry goes last and the field is cleared. */
    method HandleAddService(writeFails: bool)
      modifies this
      ensures unchanged(this`storedNicknames, this`storedNames)
      ensures unchanged(this`mode, this`devTapCount, this`pendingPayment)
      ensures unchanged(this`isEditingName, this`newName, this`isEditingNickname)
      ensures unchanged(this`newNickname, this`nicknameError, this`isEditingBio)
      ensures unchanged(this`newBio, this`storedBios)
      ensures IsBlank(old(newService)) ==>
        services == old(services) && newService == old(newService) && user == old(user) && storedServices == old(storedServices)
      ensures !IsBlank(old(newService)) ==>
        && services == old(services) + [Trim(old(newService))] && newService == ""
        && (RealAccount(old(user)) && !writeFails ==>
              user == old(user).(services := services) && storedServices == old(storedServices)[old(user).id := services])
        && (!(RealAccount(old(user)) && !writeFails) ==> user == old(user) && storedServices == old(storedServices))
    {
      var svc := Trim(newService);
      var list := services;
      var field := newService;
      var stored := storedServices;
      var u := user;
      if svc != [] {
        list := services + [svc];
        field := "";
        if user.id != "" && !user.isGuest && !writeFails {
          stored := storedServices[user.id := list];
          u := user.(services := list);
        }
      }
      services := list;
      newService := field;
      storedServices := stored;
      user := u;
    }

    /** `handleRemoveService`. */
    method HandleRemoveService(idx: int, writeFails: bool)
      modifies this
      ensures unchanged(this`storedNicknames, this`storedNames, this`newService)
      ensures unchanged(this`mode, this`devTapCount, this`pendingPayment)
      ensures unchanged(this`isEditingName, this`newName, this`isEditingNickname)
      ensures unchanged(this`newNickname, this`nicknameError, this`isEditingBio)
      ensures unchanged(this`newBio, this`storedBios)
      ensures services == RemoveAt(old(services), idx)
      ensures RealAccount(old(user)) && !writeFails ==>
        user == old(user).(services := services) && storedServices == old(storedServices)[old(user).id := services]
      ensures !(RealAccount(old(user)) && !writeFails) ==> user == old(user) && storedServices == old(storedServices)
    {
      var updated := RemoveAt(services, idx);
      services := updated;
      if user.id != "" && !user.isGuest && !writeFails {
        storedServices := storedServices[user.id := updated];
        user := user.(services := updated);
      }
    }

    /** `handleDevTap`: the tenth tap opens the status page and starts the
        count again. */
    method HandleDevTap()
      modifies this
      ensures unchanged(this`user, this`pendingPayment)
      ensures unchanged(this`isEditingName, this`newName, this`isEditingNickname)
      ensures unchanged(this`newNickname, this`nicknameError, this`isEditingBio)
      ensures unchanged(this`newBio, this`newService, this`services)
      ensures unchanged(this`storedNames, this`storedNicknames, this`storedBios)
      ensures unchanged(this`storedServices)
      ensures old(devTapCount) + 1 >= DevTapsToUnlock ==> mode == Status && devTapCount == 0
      ensures old(devTapCount) + 1 < DevTapsToUnlock ==> mode == old(mode) && devTapCount == old(devTapCount) + 1
    {
      var newCount := devTapCount + 1;
      devTapCount := newCount;
      if newCount >= 10 {
        mode := Status;
        devTapCount := 0;
      }
    }

    /** `handlePaymentAccess`: a guest is sent to log in first, remembering
        that the paywall was wanted. */
    method HandlePaymentAccess()
      modifies this
      ensures unchanged(this`user, this`devTapCount)
      ensures unchanged(this`isEditingName, this`newName, this`isEditingNickname)
      ensures unchanged(this`newNickname, this`nicknameError, this`isEditingBio)
      ensures unchanged(this`newBio, this`newService, this`services)
      ensures unchanged(this`storedNames, this`storedNicknames, this`storedBios)
      ensures unchanged(this`storedServices)
      ensures old(user).isGuest ==> pendingPayment && mode == Login
      ensures !old(user).isGuest ==> mode == PaywallMode && pendingPayment == old(pendingPayment)
    {
      if user.isGuest {
        pendingPayment := true;
        mode := Login;
      } else {
        mode := PaywallMode;
      }
    }

    /** The login screen reports a signed-in user. */
    method OnLogin(u: User)
      modifies this
      ensures unchanged(this`devTapCount, this`isEditingName, this`newName)
      ensures unchanged(this`isEditingNickname, this`newNickname, this`nicknameError)
      ensures unchanged(this`isEditingBio, this`newBio, this`newService)
      ensures unchanged(this`services, this`storedNames, this`storedNicknames)
      ensures unchanged(this`storedBios, this`storedServices)
      ensures user == u && !pendingPayment
      ensures mode == if old(pendingPayment) then PaywallMode else ProfileMode
    {
      user := u;
      if pendingPayment {
        pendingPayment := false;
        mode := PaywallMode;
      } else {
        mode := ProfileMode;
      }
    }

    /** The login screen is cancelled. */
    method OnLoginCancel()
      modifies this
      ensures unchanged(this`devTapCount, this`isEditingName, this`newName)
      ensures unchanged(this`isEditingNickname, this`newNickname, this`nicknameError)
      ensures unchanged(this`isEditingBio, this`newBio, this`newService)
      ensures unchanged(this`services, this`storedNames, this`storedNicknames)
      ensures unchanged(this`storedBios, this`storedServices)
      ensures !pendingPayment && mode == ProfileMode && user == old(user)
    {
      pendingPayment := false;
      mode := ProfileMode;
    }
  }
}
