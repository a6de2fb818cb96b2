/** Whole conversations run through the handlers, each showing one
    behaviour of the bot end to end. The operator "op" is on the
    allow-list in every one of them. */
module Scenarios {
  import opened Intake
  import Catalog
  import Text

  /** Two photos of one album: the first photo's task is cancelled by the
      second, so its wake-up is ignored; the second's wake-up hands over
      both ids in arrival order. */
  method AlbumDebounce(cfg: Config)
    returns (staleReply: Reply, batch: seq<string>, mode: Mode)
    requires "op" in cfg.allowedUsers
    ensures staleReply == Silent
    ensures batch == ["a", "b"] && mode == WaitingForApartment
  {
    var s := new Session();
    var r := s.HandlePhoto(cfg, Some("op"), "a", Some("g1"));
    r := s.HandlePhoto(cfg, Some("op"), "b", Some("g1"));
    staleReply := s.FireTimer(cfg, 0);
    r := s.FireTimer(cfg, 1);
    batch, mode := s.fileIds, s.mode;
  }

  /** Two albums interleaved in one conversation: the photo of the second
      album cancels the first album's task, and when the second album
      completes the whole album map is emptied, so the first album's
      photo is dropped rather than delivered later. */
  method InterleavedAlbums(cfg: Config)
    returns (batch: seq<string>, leftOver: map<string, seq<string>>, late: Reply)
    requires "op" in cfg.allowedUsers
    ensures batch == ["b"] && leftOver == map[] && late == Silent
  {
    var s := new Session();
    var r := s.HandlePhoto(cfg, Some("op"), "a", Some("g1"));
    r := s.HandlePhoto(cfg, Some("op"), "b", Some("g2"));
    late := s.FireTimer(cfg, 0);
    r := s.FireTimer(cfg, 1);
    batch, leftOver := s.fileIds, s.album;
  }

  /** Through the dispatcher: a single photo, then a reply that is not a
      listed apartment, which re-prompts and keeps the waiting photo and
      the files already on disk. */
  method UnknownApartment(cfg: Config, text: string, date: string, fetchable: set<string>,
                          dirs0: set<Catalog.Path>, files0: set<Catalog.Path>)
    returns (reply: Reply, batch: seq<string>, mode: Mode, files: set<Catalog.Path>)
    requires "op" in cfg.allowedUsers
    requires text != "/start" && Text.Strip(text) !in cfg.apartments
    requires Catalog.InDirs(files0, dirs0)
    ensures reply == PickFromList
    ensures batch == ["x"] && mode == WaitingForApartment && files == files0
  {
    var s := new Session();
    var store := new Catalog.Store(cfg.root, dirs0, files0);
    var r := s.Dispatch(cfg, Received(PhotoMessage(Some("op"), "x", None)), store, date, fetchable);
    reply := s.Dispatch(cfg, Received(TextMessage(Some("op"), text)), store, date, fetchable);
    batch, mode, files := s.fileIds, s.mode, store.files;
  }

  /** A photo from someone not on the allow-list changes nothing. */
  method StrangerIgnored(cfg: Config, stranger: string)
    returns (reply: Reply, mode: Mode, albumGroups: set<string>, live: set<nat>)
    requires stranger !in cfg.allowedUsers
    ensures reply == Silent && mode == Idle && albumGroups == {} && live == {}
  {
    var s := new Session();
    reply := s.HandlePhoto(cfg, Some(stranger), "x", Some("g1"));
    mode, albumGroups, live := s.mode, s.album.Keys, s.pending.Keys;
  }

  /** state.clear() forgets the album task without cancelling it: after a
      reset that happens while an album task sleeps (as process_apartment
      does after a save), the next album photo arms a second task beside
      it, and the older one, waking first, closes the new album early. */
  method ResetLeavesTaskAlive(cfg: Config)
    returns (liveBefore: set<nat>, batch: seq<string>, mode: Mode)
    requires "op" in cfg.allowedUsers
    ensures liveBefore == {0, 1}
    ensures batch == ["b"] && mode == WaitingForApartment
  {
    var s := new Session();
    var r := s.HandlePhoto(cfg, Some("op"), "a", Some("g1"));
    s.Clear();
    r := s.HandlePhoto(cfg, Some("op"), "b", Some("g1"));
    liveBefore := s.pending.Keys;
    r := s.FireTimer(cfg, 0);
    batch, mode := s.fileIds, s.mode;
  }

  /** The same conversation with the reset that cancels sleeping tasks:
      the old task is gone, the new album's photo arms the only live task,
      and the old token's wake-up does nothing. */
  method ResetCancelsTask(cfg: Config)
    returns (liveBefore: set<nat>, stale: Reply, album: seq<string>, mode: Mode)
    requires "op" in cfg.allowedUsers
    ensures liveBefore == {1} && stale == Silent
    ensures album == ["b"] && mode == Idle
  {
    var s := new Session();
    var r := s.HandlePhoto(cfg, Some("op"), "a", Some("g1"));
    s.ClearAndCancel();
    r := s.HandlePhoto(cfg, Some("op"), "b", Some("g1"));
    liveBefore := s.pending.Keys;
    stale := s.FireTimer(cfg, 0);
    album, mode := s.AlbumOf("g1"), s.mode;
  }
}
