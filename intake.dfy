/** The per-conversation intake state machine of the photo bot (main.py):
    photos are gathered, singly or as an album closed by a two-second
    debounce timer, then saved under the apartment the operator picks. */
module Intake {
  import Keyboard
  import Text
  import Catalog

  datatype Option<T> = None | Some(value: T)

  /** The values main.py imports from its config module. */
  datatype Config = Config(
    allowedUsers: set<string>,   // ALLOWED_USERS
    apartments: seq<string>,     // APARTMENTS
    root: Catalog.Path)          // PHOTOS_DIR

  /** An incoming chat message, as far as the handlers look at it. A photo
      message carries the file id of its largest size (message.photo[-1])
      and its media-group id, if any. */
  datatype Message =
    | TextMessage(username: Option<string>, text: string)
    | PhotoMessage(username: Option<string>, fileId: string, mediaGroup: Option<string>)
    | OtherMessage(username: Option<string>)

  /** What reaches a session: a message, or the wake-up of the album task
      armed under the given token (the end of asyncio.sleep(2)). */
  datatype Event = Received(msg: Message) | TimerFired(token: nat)

  /** The aiogram FSM state: no state, or UserStates.waiting_for_apartment. */
  datatype Mode = Idle | WaitingForApartment

  /** What the bot answers. */
  datatype Reply =
    | Silent
    | NotAuthorized
    | Welcome
    | NotAPhoto
    | ChooseApartment(keyboard: seq<seq<string>>)
    | PickFromList
    | NothingToSave
    | Saved(apartment: string, failures: seq<string>)
    | HandlerError     // message.text is None: .strip() raises

  /** The allow-list test of main.py: a user without a username, or with an
      empty one, or one not listed, is refused. */
  predicate IsAuthorized(username: Option<string>, allowed: set<string>)
  {
    username.Some? && username.value != "" && username.value in allowed
  }

  class Session {
    var mode: Mode
    /** FSM data "album": media-group id to the file ids received so far. */
    var album: map<string, seq<string>>
    /** FSM data "file_ids": the batch waiting for an apartment. */
    var fileIds: seq<string>
    /** FSM data "album_timer": the task the next grouped photo cancels. */
    var timer: Option<nat>
    /** Album tasks armed for this conversation that are still asleep:
        neither cancelled nor woken. Token to media-group id. */
    var pending: map<nat, string>
    /** The token the next armed task gets. */
    var nextToken: nat

    /** Tokens are fresh, album lists are never empty, and the recorded
        timer is asleep and guards a non-empty album group. */
    ghost predicate Valid()
      reads this
    {
      && (forall t :: t in pending ==> t < nextToken)
      && (forall g :: g in album ==> album[g] != [])
      && (timer.Some? ==>
            && timer.value in pending
            && pending[timer.value] in album)
    }

    /** Every album task still asleep is the recorded one (so there is at
        most one, and the next grouped photo cancels it). */
    ghost predicate OnlyRecordedAsleep()
      reads this
    {
      forall t :: t in pending ==> timer == Some(t)
    }

    constructor ()
      ensures Valid() && OnlyRecordedAsleep()
      ensures mode == Idle && album == map[] && fileIds == [] && timer == None
      ensures pending == map[] && nextToken == 0
    {
      mode := Idle;
      album := map[];
      fileIds := [];
      timer := None;
      pending := map[];
      nextToken := 0;
    }

    /** The ids gathered so far for a media group (album.get(group, [])). */
    function AlbumOf(group: string): seq<string>
      reads this
    {
      if group in album then album[group] else []
    }

    /** state.clear(): no FSM state and no data. The asyncio task named by
        "album_timer" is dropped from the data but not cancelled, so a task
        asleep at the reset stays live with no timer recorded for it. */
    method Clear()
      modifies this
      ensures Cleared()
      ensures pending == old(pending) && nextToken == old(nextToken)
      ensures old(pending) != map[] ==> !OnlyRecordedAsleep()
    {
      mode := Idle;
      album := map[];
      fileIds := [];
      timer := None;
      if pending != map[] {
        var t :| t in pending;
        assert timer != Some(t);
      }
    }

    /** The reset the handlers evidently intend: state.clear() together with
        cancelling every album task still asleep. */
    method ClearAndCancel()
      modifies this
      ensures Cleared() && OnlyRecordedAsleep()
      ensures pending == map[] && nextToken == old(nextToken)
    {
      mode := Idle;
      album := map[];
      fileIds := [];
      timer := None;
      pending := map[];
    }

    /** What handle_photo_album does with a photo, case by case. */
    twostate predicate PhotoHandled(cfg: Config, username: Option<string>, fileId: string,
                                    mediaGroup: Option<string>, reply: Reply)
      reads this
    {
      if !IsAuthorized(username, cfg.allowedUsers) then
        // a refused user: nothing changes and nothing is said
        reply == Silent && Unchanged()
      else if fileId == "" then
        // no file id: refused without a change
        reply == NotAPhoto && Unchanged()
      else if mediaGroup.Some? && mediaGroup.value != "" then
        // a grouped photo extends its group and re-arms the single timer;
        // `if media_group:` treats None and "" as falsy, so those fall through
        // to the single-photo branch
        var g := mediaGroup.value;
        && reply == Silent
        && album == old(album)[g := old(AlbumOf(g)) + [fileId]]
        && timer == Some(old(nextToken)) && nextToken == old(nextToken) + 1
        && pending == (if old(timer).Some? then old(pending) - {old(timer).value} else old(pending))
                        [old(nextToken) := g]
        && mode == old(mode) && fileIds == old(fileIds)
      else
        // a single photo replaces the batch and asks for an apartment
        && reply.ChooseApartment? && Keyboard.Flatten(reply.keyboard) == cfg.apartments
        && fileIds == [fileId] && mode == WaitingForApartment
        && album == old(album) && timer == old(timer)
        && pending == old(pending) && nextToken == old(nextToken)
    }

    /** handle_photo_album. */
    method HandlePhoto(cfg: Config, username: Option<string>, fileId: string,
                       mediaGroup: Option<string>)
      returns (reply: Reply)
      requires Valid()
      modifies this
      ensures Valid()
      ensures PhotoHandled(cfg, username, fileId, mediaGroup, reply)
      // the task it supersedes can no longer fire
      ensures old(timer).Some? && IsAuthorized(username, cfg.allowedUsers) && fileId != ""
              && mediaGroup.Some? && mediaGroup.value != "" ==>
        old(timer).value !in pending
      ensures old(OnlyRecordedAsleep()) ==> OnlyRecordedAsleep()
    {
      if !IsAuthorized(username, cfg.allowedUsers) {
        return Silent;
      }
      if fileId == "" {
        return NotAPhoto;
      }
      // `if media_group:`: None and "" are falsy
      if mediaGroup.Some? && mediaGroup.value != "" {
        var g := mediaGroup.value;
        album := album[g := AlbumOf(g) + [fileId]];
        if timer.Some? {
          pending := pending - {timer.value};
        }
        pending := pending[nextToken := g];
        timer := Some(nextToken);
        nextToken := nextToken + 1;
        reply := Silent;
      } else {
        fileIds := [fileId];
        var rows := Keyboard.ApartmentKeyboard(cfg.apartments);
        reply := ChooseApartment(rows);
        mode := WaitingForApartment;
      }
    }

    /** What the wake-up of the task armed under token does: a cancelled or
        already woken task nothing; otherwise the task ends, and if its
        group has ids they become the batch, the whole album map is emptied
        and the session waits for an apartment. */
    twostate predicate TimerHandled(cfg: Config, token: nat, reply: Reply)
      reads this
    {
      if token !in old(pending) then
        reply == Silent && Unchanged()
      else
        var g := old(pending)[token];
        && pending == old(pending) - {token} && nextToken == old(nextToken)
        && if old(AlbumOf(g)) == [] then
             && reply == Silent
             && mode == old(mode) && album == old(album)
             && fileIds == old(fileIds) && timer == old(timer)
           else
             && reply.ChooseApartment? && Keyboard.Flatten(reply.keyboard) == cfg.apartments
             && fileIds == old(AlbumOf(g))
             && album == map[] && timer == None && mode == WaitingForApartment
    }

    /** wait_for_album_end, after its sleep. */
    method FireTimer(cfg: Config, token: nat) returns (reply: Reply)
      requires Valid()
      modifies this
      ensures Valid()
      ensures TimerHandled(cfg, token, reply)
      ensures old(OnlyRecordedAsleep()) ==> OnlyRecordedAsleep()
    {
      if token !in pending {
        return Silent;
      }
      var g := pending[token];
      pending := pending - {token};
      var ids := AlbumOf(g);
      if ids == [] {
        return Silent;
      }
      fileIds := ids;
      album := map[];
      timer := None;
      var rows := Keyboard.ApartmentKeyboard(cfg.apartments);
      reply := ChooseApartment(rows);
      mode := WaitingForApartment;
    }

    /** process_apartment up to its state.clear(): strip and check the
        reply, then save the waiting batch. The session is only read. */
    method SelectAndSave(cfg: Config, text: Option<string>, store: Catalog.Store,
                         date: string, fetchable: set<string>)
      returns (reply: Reply)
      requires store.Valid()
      modifies store
      ensures store.Valid()
      ensures ApartmentChosen(cfg, text, fileIds, store, date, fetchable, reply)
    {
      if text.None? {
        return HandlerError;
      }
      var apartment := Text.Strip(text.value);
      if apartment !in cfg.apartments {
        return PickFromList;
      }
      if fileIds == [] {
        return NothingToSave;
      }
      var failures := Catalog.SaveBatch(store, cfg.root, date, apartment, fileIds, fetchable);
      reply := Saved(apartment, failures);
    }

    /** process_apartment as main.py writes it, reached only while waiting
        for an apartment. Both of its resets are state.clear(), so an album
        task asleep at the reset survives it. */
    method ProcessApartment(cfg: Config, text: Option<string>, store: Catalog.Store,
                            date: string, fetchable: set<string>)
      returns (reply: Reply)
      requires Valid() && store.Valid() && mode == WaitingForApartment
      modifies this, store
      ensures Valid() && store.Valid()
      ensures ApartmentChosen(cfg, text, old(fileIds), store, date, fetchable, reply)
      ensures !Resets(reply) ==> Unchanged()
      ensures Resets(reply) ==> Cleared() && pending == old(pending) && nextToken == old(nextToken)
      // after a reset, no task is asleep exactly when none was before: a task
      // asleep before stays asleep with no timer recorded for it
      ensures Resets(reply) ==> (OnlyRecordedAsleep() <==> old(pending) == map[])
    {
      reply := SelectAndSave(cfg, text, store, date, fetchable);
      if Resets(reply) {
        Clear();
      }
    }

    /** process_apartment with resets that also cancel the sleeping album
        tasks: after such a reset no task is asleep, and if every sleeping
        task is the recorded one before, the same holds after. */
    method ProcessApartmentCancelling(cfg: Config, text: Option<string>, store: Catalog.Store,
                                      date: string, fetchable: set<string>)
      returns (reply: Reply)
      requires Valid() && store.Valid() && mode == WaitingForApartment
      modifies this, store
      ensures Valid() && store.Valid()
      ensures ApartmentChosen(cfg, text, old(fileIds), store, date, fetchable, reply)
      ensures !Resets(reply) ==> Unchanged()
      ensures Resets(reply) ==> Cleared() && pending == map[] && nextToken == old(nextToken)
      ensures old(OnlyRecordedAsleep()) ==> OnlyRecordedAsleep()
    {
      reply := SelectAndSave(cfg, text, store, date, fetchable);
      if Resets(reply) {
        ClearAndCancel();
      }
    }

    /** The dispatcher, in the order main.py registers its handlers: the
        /start command, then any photo, then any message while waiting for
        an apartment; a message no handler matches is dropped. Both resets
        of the apartment handler cancel the sleeping album tasks, so at
        most one task is ever asleep. */
    method Dispatch(cfg: Config, ev: Event, store: Catalog.Store,
                    date: string, fetchable: set<string>)
      returns (reply: Reply)
      requires Valid() && store.Valid()
      modifies this, store
      ensures Valid() && store.Valid()
      // /start is answered by the allow-list test, in any mode
      ensures ev.Received? && IsStart(ev.msg) ==>
        && reply == (if IsAuthorized(ev.msg.username, cfg.allowedUsers) then Welcome else NotAuthorized)
        && Unchanged() && StoreUnchanged(store)
      // a photo goes to the photo handler, in any mode
      ensures ev.Received? && ev.msg.PhotoMessage? ==>
        && PhotoHandled(cfg, ev.msg.username, ev.msg.fileId, ev.msg.mediaGroup, reply)
        && StoreUnchanged(store)
      // any other message goes to the apartment handler while waiting
      ensures ev.Received? && !IsStart(ev.msg) && !ev.msg.PhotoMessage?
              && old(mode) == WaitingForApartment ==>
        && ApartmentChosen(cfg, TextOf(ev.msg), old(fileIds), store, date, fetchable, reply)
        && (if Resets(reply) then Cleared() && pending == map[] && nextToken == old(nextToken)
            else Unchanged())
      // and is dropped otherwise
      ensures ev.Received? && !IsStart(ev.msg) && !ev.msg.PhotoMessage? && old(mode) == Idle ==>
        reply == Silent && Unchanged() && StoreUnchanged(store)
      // a wake-up goes to its task
      ensures ev.TimerFired? ==> TimerHandled(cfg, ev.token, reply) && StoreUnchanged(store)
      ensures old(OnlyRecordedAsleep()) ==> OnlyRecordedAsleep()
    {
      match ev
      case TimerFired(token) =>
        reply := FireTimer(cfg, token);
      case Received(msg) =>
        if IsStart(msg) {
          reply := if IsAuthorized(msg.username, cfg.allowedUsers) then Welcome else NotAuthorized;
        } else if msg.PhotoMessage? {
          reply := HandlePhoto(cfg, msg.username, msg.fileId, msg.mediaGroup);
        } else if mode == WaitingForApartment {
          reply := ProcessApartmentCancelling(cfg, TextOf(msg), store, date, fetchable);
        } else {
          reply := Silent;
        }
    }

    /** The session as it was before the current call. */
    twostate predicate Unchanged()
      reads this
    {
      && mode == old(mode) && album == old(album) && fileIds == old(fileIds)
      && timer == old(timer) && pending == old(pending) && nextToken == old(nextToken)
    }

    /** The session as state.clear() leaves it. */
    predicate Cleared()
      reads this
    {
      mode == Idle && album == map[] && fileIds == [] && timer == None
    }
  }

  /** The /start command (F.text == "/start"). */
  predicate IsStart(msg: Message)
  {
    msg.TextMessage? && msg.text == "/start"
  }

  /** message.text: None for a message without text. */
  function TextOf(msg: Message): Option<string>
  {
    if msg.TextMessage? then Some(msg.text) else None
  }

  /** The outcomes of process_apartment that end in state.clear(). */
  predicate Resets(reply: Reply)
  {
    reply.NothingToSave? || reply.Saved?
  }

  twostate predicate StoreUnchanged(store: Catalog.Store)
    reads store
  {
    store.files == old(store.files) && store.dirs == old(store.dirs)
  }

  /** Which way process_apartment goes and what it writes, up to its
      state.clear(); ids is the batch waiting when it starts. A message
      without text raises before anything happens; a stripped reply not in
      APARTMENTS re-prompts; an empty batch is an error; otherwise the batch
      is saved under the stripped name and its failures are reported. */
  twostate predicate ApartmentChosen(cfg: Config, text: Option<string>, ids: seq<string>,
                                     store: Catalog.Store, date: string,
                                     fetchable: set<string>, reply: Reply)
    reads store
  {
    if text.None? then
      reply == HandlerError && StoreUnchanged(store)
    else if Text.Strip(text.value) !in cfg.apartments then
      reply == PickFromList && StoreUnchanged(store)
    else if ids == [] then
      reply == NothingToSave && StoreUnchanged(store)
    else
      var apt := Text.Strip(text.value);
      && reply == Saved(apt, Catalog.Failed(ids, fetchable))
      && store.files == old(store.files) + Catalog.Stored(cfg.root, date, apt, ids, fetchable)
      && store.dirs == old(store.dirs)
           + Catalog.Prefixes(cfg.root + [date]) + Catalog.Prefixes(cfg.root + [date, apt])
  }
}
