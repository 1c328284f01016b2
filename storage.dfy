/**
 * The persistence layer: one aggregate stored under a single key of the
 * browser's local storage. Every operation reads the aggregate, changes a
 * part of it and writes it back.
 */
module Store {
  import opened Wrappers
  import opened Errors
  import opened Types

  /** What `init` leaves behind: the default aggregate when nothing was stored. */
  function Initialized(stored: Option<PostPilotStorage>): (r: Option<PostPilotStorage>)
    ensures r.Some?
    ensures stored.Some? ==> r == stored
    ensures stored.None? ==> r.value == DefaultStorage()
  {
    if stored.None? then Some(DefaultStorage()) else stored
  }

  /** A second `init` changes nothing. */
  lemma InitIdempotent(stored: Option<PostPilotStorage>)
    ensures Initialized(Initialized(stored)) == Initialized(stored)
  {
  }

  /** dev.to can upload images only when some image-host field is set. */
  predicate HasImageHost(c: Cloudinary) {
    c.cloud_name != "" || c.unsigned_preset != ""
  }

  /** The platforms of `ps`, in order, whose record has status "connected". */
  function ConnectedIn(cs: ConnectionStatus, ps: seq<Platform>): (r: seq<Platform>)
    ensures forall p :: p in r <==> p in ps && ConnectionOf(cs, p).status == Connected
    ensures |r| <= |ps|
  {
    if ps == [] then []
    else (if ConnectionOf(cs, ps[0]).status == Connected then [ps[0]] else []) + ConnectedIn(cs, ps[1..])
  }

  /** `list.filter(platform => platform !== p)`. */
  function Without(ps: seq<Platform>, p: Platform): (r: seq<Platform>)
    ensures forall q :: q in r <==> q in ps && q != p
    ensures |r| <= |ps|
  {
    if ps == [] then [] else (if ps[0] == p then [] else [ps[0]]) + Without(ps[1..], p)
  }

  /** The order of the keys of `connectionStatus`. */
  function Rank(p: Platform): nat {
    match p
    case LinkedIn => 0
    case Twitter => 1
    case Devto => 2
  }

  predicate InKeyOrder(ps: seq<Platform>) {
    forall i, j :: 0 <= i < j < |ps| ==> Rank(ps[i]) < Rank(ps[j])
  }

  lemma {:induction false} ConnectedInOrder(cs: ConnectionStatus, ps: seq<Platform>)
    requires InKeyOrder(ps)
    ensures InKeyOrder(ConnectedIn(cs, ps))
  {
    if ps != [] {
      ConnectedInOrder(cs, ps[1..]);
      var rest := ConnectedIn(cs, ps[1..]);
      forall q | q in rest ensures Rank(ps[0]) < Rank(q) {
        var j :| 1 <= j < |ps| && ps[j] == q;
      }
    }
  }

  lemma {:induction false} WithoutOrder(ps: seq<Platform>, p: Platform)
    requires InKeyOrder(ps)
    ensures InKeyOrder(Without(ps, p))
  {
    if ps != [] {
      WithoutOrder(ps[1..], p);
      var rest := Without(ps[1..], p);
      forall q | q in rest ensures Rank(ps[0]) < Rank(q) {
        var j :| 1 <= j < |ps| && ps[j] == q;
      }
    }
  }

  /** `getConnectedAccounts`'s filter/map pipeline: the connected platforms
      in key order, without dev.to when no image-host field is set. */
  function ConnectedAccounts(s: Settings): (r: seq<Platform>)
    ensures forall p :: p in r <==>
      ConnectionOf(s.connectionStatus, p).status == Connected && (p == Devto ==> HasImageHost(s.cloudinary))
    ensures InKeyOrder(r)
  {
    var keys := [LinkedIn, Twitter, Devto];
    var connected := ConnectedIn(s.connectionStatus, keys);
    ConnectedInOrder(s.connectionStatus, keys);
    if s.cloudinary.cloud_name == "" && s.cloudinary.unsigned_preset == "" then
      WithoutOrder(connected, Devto);
      Without(connected, Devto)
    else
      connected
  }

  function Keys(ps: seq<Platform>): (r: seq<string>)
    ensures |r| == |ps| && forall i :: 0 <= i < |ps| ==> r[i] == Key(ps[i])
  {
    seq(|ps|, i requires 0 <= i < |ps| => Key(ps[i]))
  }

  /** What `clearStorage` resolves with. */
  datatype ClearResult = ClearResult(status: string, error: Option<string>)

  /** The `Storage` class; `stored` is what the browser holds under the key "postpilot". */
  class Storage {
    var stored: Option<PostPilotStorage>

    /** The constructor starts `init` on whatever the browser already holds. */
    constructor (existing: Option<PostPilotStorage>)
      ensures stored == Initialized(existing)
    {
      stored := Initialized(existing);
    }

    method Init()
      modifies this
      ensures stored == Initialized(old(stored))
    {
      if stored.None? {
        stored := Some(DefaultStorage());
      }
    }

    method GetStorage() returns (r: Result<PostPilotStorage, Error>)
      ensures r.Failure? <==> stored.None?
      ensures r.Failure? ==> r.error == StorageNotFound
      ensures r.Success? ==> stored == Some(r.value)
    {
      if stored.None? {
        return Failure(StorageNotFound);
      }
      return Success(stored.value);
    }

    method SetStorage(data: PostPilotStorage)
      modifies this
      ensures stored == Some(data)
    {
      stored := Some(data);
    }

    method GetSettings() returns (r: Result<Settings, Error>)
      ensures r.Failure? <==> stored.None?
      ensures r.Failure? ==> r.error == StorageNotFound
      ensures r.Success? ==> r.value == stored.value.settings
    {
      var data := GetStorage();
      if data.Failure? {
        return Failure(data.error);
      }
      return Success(data.value.settings);
    }

    /** Replaces the settings wholesale; the history is kept. */
    method SetSettings(settings: Settings) returns (r: Outcome<Error>)
      modifies this
      ensures old(stored).None? ==> r == Fail(StorageNotFound) && stored == old(stored)
      ensures old(stored).Some? ==> r == Pass && stored.Some?
      ensures old(stored).Some? ==> stored.value.settings == settings
      ensures old(stored).Some? ==> stored.value.history == old(stored).value.history
    {
      var data := GetStorage();
      if data.Failure? {
        return Fail(data.error);
      }
      var d := data.value.(settings := settings);
      stored := Some(d);
      return Pass;
    }

    /** Removes the aggregate and runs `init` again. */
    method ClearStorage() returns (r: ClearResult)
      modifies this
      ensures stored == Some(DefaultStorage())
      ensures r == ClearResult("success", None)
    {
      stored := None;
      Init();
      return ClearResult("success", None);
    }

    /** `history.unshift(post)`: the new record comes first, the old history
        follows it unchanged, and the settings are kept. */
    method AddPostHistory(post: HistoryItem) returns (r: Outcome<Error>)
      modifies this
      ensures old(stored).None? ==> r == Fail(StorageNotFound) && stored == old(stored)
      ensures old(stored).Some? ==> r == Pass && stored.Some?
      ensures old(stored).Some? ==> stored.value.history == [post] + old(stored).value.history
      ensures old(stored).Some? ==> stored.value.settings == old(stored).value.settings
    {
      var data := GetStorage();
      if data.Failure? {
        return Fail(data.error);
      }
      var d := data.value.(history := [post] + data.value.history);
      stored := Some(d);
      return Pass;
    }

    /** Empties the history; the settings are kept. */
    method ClearHistory() returns (r: Outcome<Error>)
      modifies this
      ensures old(stored).None? ==> r == Fail(StorageNotFound) && stored == old(stored)
      ensures old(stored).Some? ==> r == Pass && stored.Some?
      ensures old(stored).Some? ==> stored.value.history == []
      ensures old(stored).Some? ==> stored.value.settings == old(stored).value.settings
    {
      var data := GetStorage();
      if data.Failure? {
        return Fail(data.error);
      }
      var d := data.value.(history := []);
      stored := Some(d);
      return Pass;
    }

    method GetConnectedAccounts() returns (r: Result<seq<string>, Error>)
      ensures r.Failure? <==> stored.None?
      ensures r.Success? ==> r.value == Keys(ConnectedAccounts(stored.value.settings))
    {
      var data := GetStorage();
      if data.Failure? {
        return Failure(data.error);
      }
      return Success(Keys(ConnectedAccounts(data.value.settings)));
    }

    /** Sets the two image-host fields and nothing else. */
    method SetCloudinarySettings(cloud_name: string, unsigned_preset: string) returns (r: Outcome<Error>)
      modifies this
      ensures old(stored).None? ==> r == Fail(StorageNotFound) && stored == old(stored)
      ensures old(stored).Some? ==> r == Pass && stored.Some?
      ensures old(stored).Some? ==> stored.value == old(stored).value.(settings :=
        old(stored).value.settings.(cloudinary := Cloudinary(unsigned_preset, cloud_name)))
    {
      var data := GetStorage();
      if data.Failure? {
        return Fail(data.error);
      }
      var s := data.value.settings;
      var d := data.value.(settings := s.(cloudinary := s.cloudinary.(cloud_name := cloud_name, unsigned_preset := unsigned_preset)));
      stored := Some(d);
      return Pass;
    }
  }

  /** Adding A and then B leaves the history [B, A] before what was there. */
  method AddTwoPosts(store: Storage, a: HistoryItem, b: HistoryItem)
    requires store.stored.Some?
    modifies store
    ensures store.stored.Some? && store.stored.value.history == [b, a] + old(store.stored).value.history
    ensures store.stored.value.settings == old(store.stored).value.settings
  {
    var _ := store.AddPostHistory(a);
    var _ := store.AddPostHistory(b);
  }
}
