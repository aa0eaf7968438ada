/**
 * The notification hub client: a local key-value store (SharedPreferences)
 * caching registration ids by registration name, and the operations that
 * reconcile it with the hub. Requests go through Connection.Execute to a
 * Transport; the store is a map updated in place.
 */
module Hub {
  import opened Wrappers
  import opened Strings
  import opened Xml
  import opened Errors
  import opened Connection
  import opened Registrations

  const StoragePrefix := "__NH_"
  /** Keys of cached registration ids: the prefix followed by the registration name. */
  const RegistrationNamePrefix := "__NH_REG_NAME_"
  const PnsHandleKey := "__NH_PNS_HANDLE"
  const StorageVersionKey := "__NH_STORAGE_VERSION"
  const StorageVersion := "1.0.0"
  const XmlContentType := "application/atom+xml"
  const NewRegistrationLocationHeader := "Location"

  /** The store key of a registration name; Java's concatenation spells a null name "null". */
  function NameKey(name: Option<string>): (k: string)
    ensures StartsWith(k, RegistrationNamePrefix)
  {
    RegistrationNamePrefix + Show(name)
  }

  /** The three kinds of key never collide, and only name keys carry the name prefix. */
  lemma KeysDistinct(name: Option<string>)
    ensures NameKey(name) != PnsHandleKey && NameKey(name) != StorageVersionKey
    ensures !StartsWith(PnsHandleKey, RegistrationNamePrefix) && !StartsWith(StorageVersionKey, RegistrationNamePrefix)
    ensures StartsWith(PnsHandleKey, StoragePrefix) && StartsWith(StorageVersionKey, StoragePrefix)
    ensures StartsWith(NameKey(name), StoragePrefix)
  {
    assert NameKey(name)[5] == 'R';
    assert PnsHandleKey[5] == 'P' && StorageVersionKey[5] == 'S';
    assert PnsHandleKey[..|RegistrationNamePrefix|][5] == 'P';
    assert StorageVersionKey[..|RegistrationNamePrefix|][5] == 'S';
  }

  /** A name key is the prefix followed by the name it was made from. */
  lemma NameKeyOfSuffix(key: string)
    requires StartsWith(key, RegistrationNamePrefix)
    ensures NameKey(Some(key[|RegistrationNamePrefix|..])) == key
  {
    assert key == key[..|RegistrationNamePrefix|] + key[|RegistrationNamePrefix|..];
  }

  /** Editor.putString: a null value removes the key. */
  function Put(m: map<string, string>, k: string, v: Option<string>): (r: map<string, string>)
    ensures Lookup(r, k) == v
    ensures forall j :: j != k ==> Lookup(r, j) == Lookup(m, j)
  {
    match v
    case None => m - {k}
    case Some(s) => m[k := s]
  }

  /** The store after storeRegistrationId(name, id, handle). */
  function StoreId(m: map<string, string>, name: Option<string>, id: Option<string>, handle: Option<string>): (r: map<string, string>)
    ensures Lookup(r, NameKey(name)) == id
    ensures Lookup(r, PnsHandleKey) == handle
    ensures Lookup(r, StorageVersionKey) == Some(StorageVersion)
    ensures forall k :: k != NameKey(name) && k != PnsHandleKey && k != StorageVersionKey ==> Lookup(r, k) == Lookup(m, k)
  {
    KeysDistinct(name);
    Put(Put(Put(m, NameKey(name), id), PnsHandleKey, handle), StorageVersionKey, Some(StorageVersion))
  }

  /** The store once every key with the prefix is removed. */
  function Purge(m: map<string, string>, prefix: string): (r: map<string, string>)
    ensures forall k :: k in r <==> k in m && !StartsWith(k, prefix)
    ensures forall k :: k in r ==> r[k] == m[k]
  {
    map k | k in m && !StartsWith(k, prefix) :: m[k]
  }

  /**
   * Purging the name keys removes every cached registration id and keeps
   * the PNS handle and the storage version.
   */
  lemma PurgeNames(m: map<string, string>)
    ensures forall k :: k in Purge(m, RegistrationNamePrefix) ==> !StartsWith(k, RegistrationNamePrefix)
    ensures Lookup(Purge(m, RegistrationNamePrefix), PnsHandleKey) == Lookup(m, PnsHandleKey)
    ensures Lookup(Purge(m, RegistrationNamePrefix), StorageVersionKey) == Lookup(m, StorageVersionKey)
  {
    KeysDistinct(None);
  }

  /** Purging on a storage version mismatch removes the ids, the handle and the version alike. */
  lemma PurgeStorage(m: map<string, string>, name: Option<string>)
    ensures NameKey(name) !in Purge(m, StoragePrefix)
    ensures PnsHandleKey !in Purge(m, StoragePrefix) && StorageVersionKey !in Purge(m, StoragePrefix)
  {
    KeysDistinct(name);
  }

  /** isTemplateRegistration: the text holds "<" followed by the template's custom node name. */
  function IsTemplateRegistration(xml: string, templateNode: string): (b: bool)
    ensures b <==> exists i :: OccursAt(xml, "<" + templateNode, i)
  {
    ContainsIff(xml, "<" + templateNode);
    Contains(xml, "<" + templateNode)
  }

  function VariantOf(xml: string, hooks: Hooks): Variant {
    if IsTemplateRegistration(xml, hooks.templateNode) then Template else Native
  }

  // ----- Calls to the hub -----

  /** The requests sent once req has gone out, if it could be built. */
  function After(sent: seq<Request>, req: Result<Request, Error>): (r: seq<Request>)
    ensures req.Success? ==> r == sent + [req.value]
    ensures req.Failure? ==> r == sent
  {
    if req.Success? then sent + [req.value] else sent
  }

  /** What executeRequest returns for the call with number n: the build error, or the classified response. */
  function Reply(respond: (nat, Request) -> Response, n: nat, req: Result<Request, Error>, target: Option<string>): (r: Result<Option<string>, Error>)
    ensures req.Failure? ==> r == Failure(req.error)
    ensures req.Success? ==> r == Classify(respond(n, req.value), target)
  {
    if req.Failure? then Failure(req.error) else Classify(respond(n, req.value), target)
  }

  // ----- createRegistrationId -----

  /**
   * The last element of path.split("/"): the empty path gives "", a path
   * of slashes only splits into nothing and the index -1 is out of bounds.
   */
  function LastSegment(path: string): (r: Result<string, Error>)
    ensures r.Failure? <==> path != "" && forall i :: 0 <= i < |path| ==> path[i] == '/'
    ensures r.Failure? ==> r.error == IndexOutOfBounds(-1)
    ensures r.Success? ==> '/' !in r.value && (r.value == "" <==> path == "")
  {
    var pieces := Split(path, '/');
    SplitEmptyIff(path, '/');
    if |pieces| == 0 then Failure(IndexOutOfBounds(-1)) else Success(pieces[|pieces| - 1])
  }

  lemma {:induction false} SplitAllEmptyIff(s: string, c: char)
    ensures (forall i :: 0 <= i < |SplitAll(s, c)| ==> SplitAll(s, c)[i] == "") <==> (forall i :: 0 <= i < |s| ==> s[i] == c)
  {
    if s != [] {
      SplitAllEmptyIff(s[1..], c);
      var rest := SplitAll(s[1..], c);
      if s[0] == c {
        var all := SplitAll(s, c);
        assert all == [""] + rest;
        assert (forall i :: 0 <= i < |s| ==> s[i] == c) <==> (forall i :: 0 <= i < |s[1..]| ==> s[1..][i] == c) by {
          assert forall i :: 1 <= i < |s| ==> s[i] == s[1..][i - 1];
        }
        assert (forall i :: 0 <= i < |all| ==> all[i] == "") <==> (forall i :: 0 <= i < |rest| ==> rest[i] == "") by {
          assert all[0] == "" && |all| == |rest| + 1;
          assert forall i :: 1 <= i < |all| ==> all[i] == rest[i - 1];
          assert forall i :: 0 <= i < |rest| ==> rest[i] == all[i + 1];
        }
      } else {
        assert SplitAll(s, c)[0] != "";
      }
    }
  }

  /** A non-empty string splits into nothing exactly when it is made of separators only. */
  lemma SplitEmptyIff(s: string, c: char)
    ensures |Split(s, c)| == 0 <==> s != "" && forall i :: 0 <= i < |s| ==> s[i] == c
  {
    if s != "" {
      var all := SplitAll(s, c);
      SplitAllEmptyIff(s, c);
      var r := DropTrailingEmpty(all);
      assert Split(s, c) == r;
      if r != [] {
        assert all[|r| - 1] == r[|r| - 1] != "";
        assert !(forall i :: 0 <= i < |all| ==> all[i] == "");
      } else {
        assert forall i :: 0 <= i < |all| ==> all[i] == "";
      }
    }
  }

  /** The new id: the last path segment of the Location header's URI. */
  function NewId(reply: Result<Option<string>, Error>, uriPath: string -> Result<string, Error>): (r: Result<string, Error>)
    ensures reply.Failure? ==> r == Failure(reply.error)
    ensures reply.Success? && reply.value.Some? && uriPath(reply.value.value).Success? ==>
      r == LastSegment(uriPath(reply.value.value).value)
  {
    match reply
    case Failure(e) => Failure(e)
    case Success(None) => Failure(NullPointer("location"))
    case Success(Some(location)) =>
      match uriPath(location)
      case Failure(e) => Failure(e)
      case Success(path) => LastSegment(path)
  }

  // ----- Reading registrations back -----

  /** A Registration of the variant the text is sniffed as, loaded from the text. */
  function Loaded(xml: string, hubPath: string, hooks: Hooks): (r: Result<RegData, Error>)
    ensures hooks.parseXml(xml).None? <==> r == Failure(MalformedXml)
    ensures r.Success? ==> r.value.variant == VariantOf(xml, hooks) && r.value.hubPath == hubPath
  {
    match hooks.parseXml(xml)
    case None => Failure(MalformedXml)
    case Some(root) =>
      LoadFieldsEffect(Fresh(VariantOf(xml, hooks), hubPath), root, hubPath, hooks);
      Success(LoadFields(Fresh(VariantOf(xml, hooks), hubPath), root, hubPath, hooks))
  }

  /** What upsertRegistrationInternal makes of the PUT's reply. */
  function UpsertOutcome(reply: Result<Option<string>, Error>, hubPath: string, hooks: Hooks): (r: Result<RegData, Error>)
    ensures reply.Failure? ==> r == Failure(reply.error)
    ensures r == Failure(RegistrationGone) <==> reply == Failure(RegistrationGone)
  {
    match reply
    case Failure(e) => Failure(e)
    case Success(None) => Failure(NullPointer("response"))
    case Success(Some(xml)) => Loaded(xml, hubPath, hooks)
  }

  /** The Outcome of a call whose value is dropped. */
  function Done<T>(reply: Result<T, Error>): (r: Outcome<Error>)
    ensures r.Pass? <==> reply.Success?
    ensures r.Fail? ==> r.error == reply.error
  {
    if reply.Success? then Pass else Fail(reply.error)
  }

  // ----- refreshRegistrationInformation -----

  /** What each feed entry loads to: printed, sniffed as native or template, then loaded. */
  function EntryRecords(es: seq<Element>, hubPath: string, hooks: Hooks): (rs: seq<Result<RegData, Error>>)
    ensures |rs| == |es|
    ensures forall i :: 0 <= i < |es| ==> rs[i] == Loaded(hooks.printXml(es[i]), hubPath, hooks)
  {
    seq(|es|, i requires 0 <= i < |es| => Loaded(hooks.printXml(es[i]), hubPath, hooks))
  }

  /** One loaded entry stored, or the error loading it raised. */
  function ApplyRecord(m: map<string, string>, rec: Result<RegData, Error>): (r: (Outcome<Error>, map<string, string>))
    ensures rec.Failure? ==> r == (Fail(rec.error), m)
    ensures rec.Success? ==> r == (Pass, StoreId(m, rec.value.custom.name, rec.value.registrationId, rec.value.custom.pnsHandle))
  {
    match rec
    case Failure(err) => (Fail(err), m)
    case Success(d) => (Pass, StoreId(m, d.custom.name, d.registrationId, d.custom.pnsHandle))
  }

  /** The records in order, stopping at the first that failed to load. */
  function ApplyRecords(m: map<string, string>, rs: seq<Result<RegData, Error>>): (Outcome<Error>, map<string, string>)
    decreases |rs|
  {
    if rs == [] then (Pass, m)
    else
      var prev := ApplyRecords(m, rs[..|rs| - 1]);
      if prev.0.Fail? then prev else ApplyRecord(prev.1, rs[|rs| - 1])
  }

  /** The store and outcome after the GET of a refresh, starting from the purged store m. */
  function RefreshOutcome(m: map<string, string>, reply: Result<Option<string>, Error>, hubPath: string, hooks: Hooks): (Outcome<Error>, map<string, string>) {
    match reply
    case Failure(e) => (Fail(e), m)
    case Success(None) => (Fail(NullPointer("response")), m)
    case Success(Some(xml)) =>
      match hooks.parseXml(xml)
      case None => (Fail(MalformedXml), m)
      case Some(root) => ApplyRecords(m, EntryRecords(ElementsByTagName(root, "entry"), hubPath, hooks))
  }

  /** The resource a refresh lists: the registrations whose handle node equals the handle. */
  function RefreshResource(hubPath: string, handle: string, p: Platform, hooks: Hooks): string {
    hubPath + "/Registrations/?$filter=" + p.urlEncode(hooks.handleNode + " eq '" + handle + "'")
  }

  /** A key that some loaded record among rs writes its id under. */
  ghost predicate RecordKey(k: string, rs: seq<Result<RegData, Error>>) {
    exists i :: 0 <= i < |rs| && rs[i].Success? && k == NameKey(rs[i].value.custom.name)
  }

  /** Applying records succeeds exactly when every record loaded. */
  lemma {:induction false} ApplyRecordsPass(m: map<string, string>, rs: seq<Result<RegData, Error>>)
    ensures ApplyRecords(m, rs).0.Pass? <==> forall i :: 0 <= i < |rs| ==> rs[i].Success?
    decreases |rs|
  {
    if rs != [] {
      var init := rs[..|rs| - 1];
      ApplyRecordsPass(m, init);
      assert forall i :: 0 <= i < |init| ==> init[i] == rs[i];
    }
  }

  /** Once a record fails, the later ones change nothing. */
  lemma {:induction false} ApplyRecordsStuck(m: map<string, string>, rs: seq<Result<RegData, Error>>, i: nat)
    requires i <= |rs|
    requires ApplyRecords(m, rs[..i]).0.Fail?
    ensures ApplyRecords(m, rs) == ApplyRecords(m, rs[..i])
    decreases |rs| - i
  {
    if i < |rs| {
      assert rs[..|rs| - 1][..i] == rs[..i];
      ApplyRecordsStuck(m, rs[..|rs| - 1], i);
    } else {
      assert rs[..i] == rs;
    }
  }

  /**
   * Applying records leaves every key alone except the PNS handle, the
   * storage version and the name keys of the loaded records.
   */
  lemma {:induction false} ApplyRecordsKeys(m: map<string, string>, rs: seq<Result<RegData, Error>>)
    ensures forall k :: k != PnsHandleKey && k != StorageVersionKey && !RecordKey(k, rs) ==>
      Lookup(ApplyRecords(m, rs).1, k) == Lookup(m, k)
    decreases |rs|
  {
    if rs != [] {
      var init := rs[..|rs| - 1];
      ApplyRecordsKeys(m, init);
      forall k | k != PnsHandleKey && k != StorageVersionKey && !RecordKey(k, rs)
        ensures Lookup(ApplyRecords(m, rs).1, k) == Lookup(m, k)
      {
        if rs[|rs| - 1].Success? {
          assert k != NameKey(rs[|rs| - 1].value.custom.name);
        }
      }
    }
  }

  /** No later record among rs stores under the key of record i. */
  ghost predicate LastOfName(rs: seq<Result<RegData, Error>>, i: nat)
    requires i < |rs| && rs[i].Success?
  {
    forall j :: i < j < |rs| && rs[j].Success? ==> NameKey(rs[j].value.custom.name) != NameKey(rs[i].value.custom.name)
  }

  /**
   * After a successful pass, each registration name of the feed maps to
   * the id of the last record bearing it (no key at all for a null id).
   */
  lemma {:induction false} ApplyRecordsStores(m: map<string, string>, rs: seq<Result<RegData, Error>>)
    requires ApplyRecords(m, rs).0.Pass?
    ensures forall i :: 0 <= i < |rs| && rs[i].Success? && LastOfName(rs, i) ==>
      Lookup(ApplyRecords(m, rs).1, NameKey(rs[i].value.custom.name)) == rs[i].value.registrationId
    decreases |rs|
  {
    if rs != [] {
      var init := rs[..|rs| - 1];
      var prev := ApplyRecords(m, init);
      assert prev.0.Pass?;
      ApplyRecordsStores(m, init);
      forall i | 0 <= i < |rs| && rs[i].Success? && LastOfName(rs, i)
        ensures Lookup(ApplyRecords(m, rs).1, NameKey(rs[i].value.custom.name)) == rs[i].value.registrationId
      {
        var last := rs[|rs| - 1];
        assert prev.0.Pass? && last.Success?;
        assert ApplyRecords(m, rs).1 == StoreId(prev.1, last.value.custom.name, last.value.registrationId, last.value.custom.pnsHandle);
        if i < |rs| - 1 {
          assert init[i] == rs[i];
          assert NameKey(last.value.custom.name) != NameKey(rs[i].value.custom.name);
          KeysDistinct(rs[i].value.custom.name);
          assert LastOfName(init, i) by {
            forall j | i < j < |init| && init[j].Success?
              ensures NameKey(init[j].value.custom.name) != NameKey(init[i].value.custom.name)
            {
              assert init[j] == rs[j];
            }
          }
        }
      }
    }
  }

  // ----- The requests the client sends -----

  /** createRegistrationId's POST, which asks for the Location header. */
  function CreateRequest(conn: map<string, string>, p: Platform, hubPath: string, now: nat): Result<Request, Error> {
    BuildRequest(conn, p, hubPath + "/registrationids/", None, XmlContentType, "POST", [], now)
  }

  /** upsertRegistrationInternal's PUT of the registration's entry to its URI. */
  function PutRequest(conn: map<string, string>, p: Platform, hooks: Hooks, d: RegData, now: nat): Result<Request, Error> {
    BuildRequest(conn, p, UriOf(d), Some(hooks.printXml(EntryXml(d, hooks))), XmlContentType, "PUT", [], now)
  }

  /** deleteRegistrationInternal's unconditional DELETE. */
  function DeleteRequest(conn: map<string, string>, p: Platform, hubPath: string, id: string, now: nat): Result<Request, Error> {
    BuildRequest(conn, p, hubPath + "/Registrations/" + id, None, XmlContentType, "DELETE", [Header("If-Match", "*")], now)
  }

  /** The GET listing the registrations of a PNS handle. */
  function ListRequest(conn: map<string, string>, p: Platform, hooks: Hooks, hubPath: string, handle: string, now: nat): Result<Request, Error> {
    BuildRequest(conn, p, RefreshResource(hubPath, handle, p, hooks), None, XmlContentType, "GET", [], now)
  }

  // ----- registerInternal, as a function of the hub's replies -----

  /**
   * What the client's calls depend on besides the store: the connection,
   * the foreign helpers, the hub path, and the transport's replies and
   * clock.
   */
  datatype Env = Env(connection: map<string, string>, platform: Platform, hooks: Hooks, hubPath: string,
                     uriPath: string -> Result<string, Error>, respond: (nat, Request) -> Response, clock: nat -> nat)

  /** The result of a registration flow, the store and trace it leaves, and the id set on the registration. */
  datatype Attempt = Attempt(result: Result<RegData, Error>, store: map<string, string>, sent: seq<Request>, id: Option<string>)

  /** createRegistrationId after the requests in sent: the new id or the error, and the trace after it. */
  function CreateStep(e: Env, sent: seq<Request>): (Result<string, Error>, seq<Request>) {
    var req := CreateRequest(e.connection, e.platform, e.hubPath, e.clock(|sent|));
    (NewId(Reply(e.respond, |sent|, req, Some(NewRegistrationLocationHeader)), e.uriPath), After(sent, req))
  }

  /** deleteRegistrationInternal's DELETE of the id after the requests in sent: its outcome and the trace after it. */
  function DeleteStep(e: Env, sent: seq<Request>, id: string): (Outcome<Error>, seq<Request>) {
    var req := DeleteRequest(e.connection, e.platform, e.hubPath, id, e.clock(|sent|));
    (Done(Reply(e.respond, |sent|, req, None)), After(sent, req))
  }

  /** upsertRegistrationInternal of d after the requests in sent. */
  function UpsertStep(e: Env, m: map<string, string>, sent: seq<Request>, d: RegData): (a: Attempt)
    ensures a.id == d.registrationId
  {
    var req := PutRequest(e.connection, e.platform, e.hooks, d, e.clock(|sent|));
    var o := UpsertOutcome(Reply(e.respond, |sent|, req, None), e.hubPath, e.hooks);
    Attempt(o, if o.Success? then StoreId(m, o.value.custom.name, o.value.registrationId, d.custom.pnsHandle) else m,
            After(sent, req), d.registrationId)
  }

  /** The id registerInternal starts from: the cached one for the name unless it is blank, else a new one. */
  function FirstId(e: Env, m: map<string, string>, sent: seq<Request>, name: Option<string>): (Result<string, Error>, seq<Request>) {
    var cached := Lookup(m, NameKey(name));
    if IsBlank(cached) then CreateStep(e, sent) else (Success(cached.value), sent)
  }

  /** The retry: a new id, set on d, and a second upsert. */
  function Renew(e: Env, m: map<string, string>, sent: seq<Request>, d: RegData): (a: Attempt)
    ensures a.result.Failure? ==> a.store == m
  {
    var created := CreateStep(e, sent);
    if created.0.Failure? then Attempt(Failure(created.0.error), m, created.1, d.registrationId)
    else UpsertStep(e, m, created.1, d.(registrationId := Some(created.0.value)))
  }

  /**
   * Lines 326-341 of registerInternal: reuse the cached id or create one,
   * upsert, and on RegistrationGone create a second id and upsert once more.
   */
  function Retry(e: Env, m: map<string, string>, sent: seq<Request>, d: RegData): Attempt {
    var first := FirstId(e, m, sent, d.custom.name);
    if first.0.Failure? then Attempt(Failure(first.0.error), m, first.1, d.registrationId)
    else UpsertOrRenew(e, m, first.1, d.(registrationId := Some(first.0.value)))
  }

  /** The upsert of d, and on RegistrationGone the retry with a new id. */
  function UpsertOrRenew(e: Env, m: map<string, string>, sent: seq<Request>, d: RegData): Attempt {
    var a := UpsertStep(e, m, sent, d);
    if a.result != Failure(RegistrationGone) then a else Renew(e, m, a.sent, d)
  }

  /**
   * refreshRegistrationInformation of handle, from the store m after the
   * requests in sent: the outcome, the store and the trace it leaves. A
   * blank handle is refused before anything changes; otherwise the cached
   * ids are dropped before the GET, whatever its reply.
   */
  function RefreshStep(e: Env, m: map<string, string>, sent: seq<Request>, handle: Option<string>)
    : (Outcome<Error>, map<string, string>, seq<Request>)
  {
    if IsBlank(handle) then (Fail(IllegalArgument("pnsHandle")), m, sent)
    else
      var req := ListRequest(e.connection, e.platform, e.hooks, e.hubPath, handle.value, e.clock(|sent|));
      var o := RefreshOutcome(Purge(m, RegistrationNamePrefix), Reply(e.respond, |sent|, req, None), e.hubPath, e.hooks);
      (o.0, o.1, After(sent, req))
  }

  /** The handle a due refresh lists: the stored one, read with default "", unless blank; else the registration's. */
  function RefreshHandle(m: map<string, string>, d: RegData): (h: Option<string>)
    ensures !IsBlank(Lookup(m, PnsHandleKey)) ==> h == Lookup(m, PnsHandleKey)
    ensures IsBlank(Lookup(m, PnsHandleKey)) ==> h == d.custom.pnsHandle
  {
    var stored := Lookup(m, PnsHandleKey).GetOr("");
    if IsBlank(Some(stored)) then d.custom.pnsHandle else Some(stored)
  }

  /** Lines 318-326 of registerInternal: the refresh, when one is due. */
  function Prepared(e: Env, m: map<string, string>, sent: seq<Request>, refreshNeeded: bool, d: RegData)
    : (Outcome<Error>, map<string, string>, seq<Request>)
  {
    if refreshNeeded then RefreshStep(e, m, sent, RefreshHandle(m, d)) else (Pass, m, sent)
  }

  /**
   * registerInternal of d from the store m after the requests in sent:
   * the refresh when one is due, then Retry; and whether a refresh is
   * still due afterwards.
   */
  function RegisterStep(e: Env, m: map<string, string>, sent: seq<Request>, refreshNeeded: bool, d: RegData): (Attempt, bool) {
    var p := Prepared(e, m, sent, refreshNeeded, d);
    if p.0.Fail? then (Attempt(Failure(p.0.error), p.1, p.2, d.registrationId), true)
    else (Retry(e, p.1, p.2, d), false)
  }

  // ----- unregisterAll -----

  /**
   * The deletions of unregisterAll, in the order the keys are visited: the
   * id under each key (read with default "") is DELETEd and the key
   * removed whatever the reply, until the first deletion that fails.
   */
  function DeleteKeys(e: Env, m: map<string, string>, sent: seq<Request>, keys: seq<string>)
    : (Outcome<Error>, map<string, string>, seq<Request>)
    decreases |keys|
  {
    if keys == [] then (Pass, m, sent)
    else
      var prev := DeleteKeys(e, m, sent, keys[..|keys| - 1]);
      if prev.0.Fail? then prev
      else
        var k := keys[|keys| - 1];
        var d := DeleteStep(e, prev.2, Lookup(prev.1, k).GetOr(""));
        (d.0, prev.1 - {k}, d.1)
  }

  /** keys lists distinct name keys of m. */
  ghost predicate CachedNames(keys: seq<string>, m: map<string, string>) {
    && (forall i :: 0 <= i < |keys| ==> keys[i] in m && StartsWith(keys[i], RegistrationNamePrefix))
    && (forall i, j :: 0 <= i < j < |keys| ==> keys[i] != keys[j])
  }

  lemma CachedNamesSnoc(keys: seq<string>, key: string, m: map<string, string>)
    requires CachedNames(keys, m) && key in m && StartsWith(key, RegistrationNamePrefix) && key !in keys
    ensures CachedNames(keys + [key], m)
  {
  }

  /**
   * unregisterAll's deletions from the refreshed store m visited the
   * distinct cached names in order, stopping at the first failure; when
   * none failed every cached name was visited and no name key is left.
   */
  ghost predicate DeletedInOrder(e: Env, m: map<string, string>, sent: seq<Request>, order: seq<string>,
                                 r: Outcome<Error>, m': map<string, string>, t: seq<Request>) {
    && CachedNames(order, m)
    && (r, m', t) == DeleteKeys(e, m, sent, order)
    && (forall k :: k in m' ==> k in m && m'[k] == m[k])
    && (r.Pass? ==> forall k :: k in m && StartsWith(k, RegistrationNamePrefix) ==> k in order)
    && (r.Pass? ==> forall k :: k in m' ==> !StartsWith(k, RegistrationNamePrefix))
  }

  /**
   * unregisterAll from the store m after the requests in sent, with the
   * refresh flag due: a failed refresh is its outcome, with the flag
   * unchanged; after a successful one the flag is cleared and the cached
   * names are deleted in the order given.
   */
  ghost predicate UnregisteredAll(e: Env, m: map<string, string>, sent: seq<Request>, handle: Option<string>, due: bool,
                                  order: seq<string>, r: Outcome<Error>, m': map<string, string>, t: seq<Request>, due': bool) {
    var f := RefreshStep(e, m, sent, handle);
    && (f.0.Fail? ==> r == f.0 && m' == f.1 && t == f.2 && due' == due)
    && (f.0.Pass? ==> !due' && DeletedInOrder(e, f.1, f.2, order, r, m', t))
  }

  /** Deleting the keys only removes keys among them, and all of them when every deletion passed. */
  lemma {:induction false} DeleteKeysStore(e: Env, m: map<string, string>, sent: seq<Request>, keys: seq<string>)
    ensures var (o, m', _) := DeleteKeys(e, m, sent, keys);
      && (forall k :: k in m' ==> k in m && m'[k] == m[k])
      && (forall k :: k in m && k !in keys ==> k in m')
      && (o.Pass? ==> forall k :: k in m' <==> k in m && k !in keys)
    decreases |keys|
  {
    if keys != [] {
      var init := keys[..|keys| - 1];
      DeleteKeysStore(e, m, sent, init);
      assert keys == init + [keys[|keys| - 1]];
    }
  }

  /** t is base followed by at most n requests, all of them DELETEs. */
  ghost predicate OnlyDeletes(t: seq<Request>, base: seq<Request>, n: nat) {
    && |base| <= |t| <= |base| + n && t[..|base|] == base
    && forall i :: |base| <= i < |t| ==> t[i].verb == "DELETE"
  }

  lemma OnlyDeletesThen(t1: seq<Request>, t2: seq<Request>, base: seq<Request>, n1: nat, n2: nat)
    requires OnlyDeletes(t1, base, n1) && OnlyDeletes(t2, t1, n2)
    ensures OnlyDeletes(t2, base, n1 + n2)
  {
    assert t2[..|base|] == t2[..|t1|][..|base|];
  }

  /** Deleting the keys extends the trace with DELETEs only, at most one per key. */
  lemma {:induction false} DeleteKeysTrace(e: Env, m: map<string, string>, sent: seq<Request>, keys: seq<string>)
    ensures OnlyDeletes(DeleteKeys(e, m, sent, keys).2, sent, |keys|)
    decreases |keys|
  {
    if keys != [] {
      var init := keys[..|keys| - 1];
      DeleteKeysTrace(e, m, sent, init);
      var prev := DeleteKeys(e, m, sent, init);
      if prev.0.Pass? {
        DeleteStepTrace(e, prev.2, Lookup(prev.1, keys[|keys| - 1]).GetOr(""));
        OnlyDeletesThen(prev.2, DeleteKeys(e, m, sent, keys).2, sent, |init|, 1);
      }
    }
  }

  /** A deletion sends at most one request, a DELETE. */
  lemma DeleteStepTrace(e: Env, sent: seq<Request>, id: string)
    ensures OnlyDeletes(DeleteStep(e, sent, id).1, sent, 1)
  {
    var req := DeleteRequest(e.connection, e.platform, e.hubPath, id, e.clock(|sent|));
    assert req.Success? ==> req.value.verb == "DELETE";
    OnlyDeletesAfter(sent, req);
  }

  lemma OnlyDeletesAfter(sent: seq<Request>, req: Result<Request, Error>)
    requires req.Success? ==> req.value.verb == "DELETE"
    ensures OnlyDeletes(After(sent, req), sent, 1)
  {
    if req.Success? {
      assert After(sent, req)[..|sent|] == sent;
    }
  }

  // ----- register and registerTemplate -----

  /** The registration register builds: native, named "$Default", with the handle and the non-blank tags. */
  function NativeDraft(hubPath: string, handle: string, tags: Option<seq<Option<string>>>): RegData {
    Fresh(Native, hubPath).(tags := NonBlankTags(tags), custom := Custom(Some(DefaultRegistrationName), Some(handle), None))
  }

  /** The registration registerTemplate builds: a template with the handle, name, body and non-blank tags. */
  function TemplateDraft(hubPath: string, handle: string, templateName: string, template: string,
                         tags: Option<seq<Option<string>>>): RegData {
    Fresh(Template, hubPath).(tags := NonBlankTags(tags), custom := Custom(Some(templateName), Some(handle), Some(template)))
  }

  /** The native registration register fills in before sending it. */
  method NewNative(hubPath: string, handle: string, tags: Option<seq<Option<string>>>) returns (reg: Registration)
    ensures fresh(reg) && reg.Data() == NativeDraft(hubPath, handle, tags)
  {
    reg := new Registration(Native, hubPath);
    reg.pnsHandle := Some(handle);
    reg.name := Some(DefaultRegistrationName);
    reg.AddTags(tags);
  }

  /** The template registration registerTemplate fills in before sending it. */
  method NewTemplate(hubPath: string, handle: string, templateName: string, template: string,
                     tags: Option<seq<Option<string>>>) returns (reg: Registration)
    ensures fresh(reg) && reg.Data() == TemplateDraft(hubPath, handle, templateName, template, tags)
  {
    reg := new Registration(Template, hubPath);
    reg.pnsHandle := Some(handle);
    reg.name := Some(templateName);
    reg.bodyTemplate := Some(template);
    reg.AddTags(tags);
  }

  /** The argument registerTemplate refuses first, if any: the handle, the template name, then the template. */
  function TemplateArgumentError(pnsHandle: Option<string>, templateName: Option<string>, template: Option<string>)
    : (r: Option<Error>)
    ensures r.None? <==> !IsBlank(pnsHandle) && !IsBlank(templateName) && !IsBlank(template)
    ensures r.Some? ==> r.value.IllegalArgument?
  {
    if IsBlank(pnsHandle) then Some(IllegalArgument("pnsHandle"))
    else if IsBlank(templateName) then Some(IllegalArgument("templateName"))
    else if IsBlank(template) then Some(IllegalArgument("template"))
    else None
  }

  /** The cast of registerTemplate's result: a registration read back as native cannot be returned. */
  function AsTemplate(r: Result<RegData, Error>): (c: Result<RegData, Error>)
    ensures c.Success? ==> r == c && c.value.variant == Template
    ensures r.Success? && r.value.variant == Template ==> c == r
    ensures r.Failure? ==> c == r
  {
    if r.Success? && r.value.variant != Template then Failure(ClassCast) else r
  }

  /** A returned registration as a value. */
  function Value(r: Result<Registration, Error>): Result<RegData, Error>
    reads if r.Success? then {r.value} else {}
  {
    if r.Success? then Success(r.value.Data()) else Failure(r.error)
  }

  // ----- The client -----

  /** setConnectionString's checks: not blank, and ConnectionStringParser.parse accepts it. */
  function CheckConnectionString(cs: Option<string>, parse: string -> Option<map<string, string>>): (r: Result<map<string, string>, Error>)
    ensures r.Failure? <==> IsBlank(cs) || parse(cs.value).None?
    ensures r.Failure? ==> r.error == IllegalArgument("connectionString")
    ensures r.Success? ==> r.value == parse(cs.value).value
  {
    if IsBlank(cs) || parse(cs.value).None? then Failure(IllegalArgument("connectionString"))
    else Success(parse(cs.value).value)
  }

  /** The store as verifyStorageVersion leaves it: emptied of the client's keys unless the version is current. */
  function VerifiedStore(m: map<string, string>): (r: map<string, string>)
    ensures Lookup(m, StorageVersionKey) == Some(StorageVersion) ==> r == m
    ensures Lookup(m, StorageVersionKey) != Some(StorageVersion) ==>
      forall k :: (k in r <==> k in m && !StartsWith(k, StoragePrefix)) && (k in r ==> r[k] == m[k])
  {
    if Lookup(m, StorageVersionKey) == Some(StorageVersion) then m else Purge(m, StoragePrefix)
  }

  /**
   * new NotificationHub(path, connectionString, context): the connection
   * string is checked first, then the path; on success the store has been
   * through verifyStorageVersion.
   */
  method Create(hubPath: Option<string>, connectionString: Option<string>, parse: string -> Option<map<string, string>>,
                initial: map<string, string>, transport: Transport, platform: Platform, hooks: Hooks,
                uriPath: string -> Result<string, Error>)
    returns (r: Result<NotificationHub, Error>)
    ensures CheckConnectionString(connectionString, parse).Failure? ==> r == Failure(IllegalArgument("connectionString"))
    ensures CheckConnectionString(connectionString, parse).Success? && IsBlank(hubPath) ==> r == Failure(IllegalArgument("notificationHubPath"))
    ensures r.Success? <==> CheckConnectionString(connectionString, parse).Success? && !IsBlank(hubPath)
    ensures r.Success? ==>
      && fresh(r.value) && r.value.hubPath == hubPath.value
      && r.value.connectionString == connectionString.value && r.value.connection == parse(connectionString.value).value
      && r.value.store == VerifiedStore(initial) && r.value.isRefreshNeeded
      && r.value.transport == transport && r.value.platform == platform && r.value.hooks == hooks
  {
    var checked := CheckConnectionString(connectionString, parse);
    if checked.Failure? {
      return Failure(checked.error);
    }
    if IsBlank(hubPath) {
      return Failure(IllegalArgument("notificationHubPath"));
    }
    var hub := new NotificationHub(hubPath.value, connectionString.value, checked.value, parse, initial,
                                   transport, platform, hooks, uriPath);
    r := Success(hub);
  }

  class NotificationHub {
    var hubPath: string
    var connectionString: string
    /** ConnectionStringParser.parse(connectionString), which every Connection re-derives. */
    var connection: map<string, string>
    /** The SharedPreferences contents, with apply() taking effect at once. */
    var store: map<string, string>
    var isRefreshNeeded: bool
    const parse: string -> Option<map<string, string>>
    const transport: Transport
    const platform: Platform
    const hooks: Hooks
    /** new URI(s).getPath(): the path, or the exception a bad URI or a missing path raise. */
    const uriPath: string -> Result<string, Error>

    /** The constructor once its arguments passed the setters' checks. */
    constructor (hubPath: string, connectionString: string, connection: map<string, string>,
                 parse: string -> Option<map<string, string>>, store: map<string, string>,
                 transport: Transport, platform: Platform, hooks: Hooks, uriPath: string -> Result<string, Error>)
      ensures this.hubPath == hubPath && this.connectionString == connectionString && this.connection == connection
      ensures this.parse == parse && this.transport == transport && this.platform == platform && this.hooks == hooks
      ensures this.uriPath == uriPath
      ensures this.store == VerifiedStore(store) && isRefreshNeeded
    {
      this.hubPath := hubPath;
      this.connectionString := connectionString;
      this.connection := connection;
      this.parse := parse;
      this.store := store;
      this.transport := transport;
      this.platform := platform;
      this.hooks := hooks;
      this.uriPath := uriPath;
      isRefreshNeeded := false;
      new;
      VerifyStorageVersion();
    }

    /** setConnectionString: a rejected string leaves the client as it was. */
    method SetConnectionString(cs: Option<string>) returns (r: Outcome<Error>)
      modifies this`connectionString, this`connection
      ensures CheckConnectionString(cs, parse).Failure? ==>
        r == Fail(IllegalArgument("connectionString")) && connectionString == old(connectionString) && connection == old(connection)
      ensures CheckConnectionString(cs, parse).Success? ==>
        r == Pass && connectionString == cs.value && connection == parse(cs.value).value
    {
      var checked := CheckConnectionString(cs, parse);
      if checked.Failure? {
        return Fail(checked.error);
      }
      connectionString := cs.value;
      connection := checked.value;
      r := Pass;
    }

    /** setNotificationHubPath: a blank path is refused. */
    method SetNotificationHubPath(path: Option<string>) returns (r: Outcome<Error>)
      modifies this`hubPath
      ensures IsBlank(path) ==> r == Fail(IllegalArgument("notificationHubPath")) && hubPath == old(hubPath)
      ensures !IsBlank(path) ==> r == Pass && hubPath == path.value
    {
      if IsBlank(path) {
        return Fail(IllegalArgument("notificationHubPath"));
      }
      hubPath := path.value;
      r := Pass;
    }

    /** The loop over a snapshot of the keys that removes those with the prefix, applied at the end. */
    method RemoveKeysWithPrefix(prefix: string)
      modifies this`store
      ensures store == Purge(old(store), prefix)
    {
      var keys := store.Keys;
      var edited := store;
      while keys != {}
        invariant forall k :: k in edited <==> k in old(store) && (k in keys || !StartsWith(k, prefix))
        invariant forall k :: k in edited ==> edited[k] == old(store)[k]
        decreases |keys|
      {
        var key :| key in keys;
        if StartsWith(key, prefix) {
          edited := edited - {key};
        }
        keys := keys - {key};
      }
      store := edited;
    }

    /** verifyStorageVersion: a missing or different version purges the client's keys; a refresh is always due. */
    method VerifyStorageVersion()
      modifies this`store, this`isRefreshNeeded
      ensures store == VerifiedStore(old(store))
      ensures isRefreshNeeded
    {
      var current := if StorageVersionKey in store then store[StorageVersionKey] else "";
      if current != StorageVersion {
        RemoveKeysWithPrefix(StoragePrefix);
      }
      isRefreshNeeded := true;
    }

    /** retrieveRegistrationId: the cached id, or null. */
    function RetrieveRegistrationId(name: Option<string>): (id: Option<string>)
      reads this`store
      ensures id.Some? <==> NameKey(name) in store
      ensures id.Some? ==> id.value == store[NameKey(name)]
    {
      Lookup(store, NameKey(name))
    }

    /** storeRegistrationId: the name's id, the PNS handle and the storage version, in that order. */
    method StoreRegistrationId(name: Option<string>, id: Option<string>, handle: Option<string>)
      modifies this`store
      ensures store == StoreId(old(store), name, id, handle)
    {
      var edited := Put(store, NameKey(name), id);
      edited := Put(edited, PnsHandleKey, handle);
      edited := Put(edited, StorageVersionKey, Some(StorageVersion));
      store := edited;
    }

    /** removeRegistrationId. */
    method RemoveRegistrationId(name: Option<string>)
      modifies this`store
      ensures store == old(store) - {NameKey(name)}
    {
      store := store - {NameKey(name)};
    }

    /** createRegistrationId: POST for a new id and take the last segment of the Location URI's path. */
    method CreateRegistrationId(ghost e: Env, ghost sent: seq<Request>) returns (r: Result<string, Error>)
      requires e == Environment() && sent == transport.sent
      modifies transport
      ensures (r, transport.sent) == CreateStep(e, sent)
    {
      var location := Execute(connection, transport, platform, hubPath + "/registrationids/", None, XmlContentType,
                              "POST", Some(NewRegistrationLocationHeader), []);
      if location.Failure? {
        return Failure(location.error);
      }
      if location.value.None? {
        return Failure(NullPointer("location"));
      }
      var path := uriPath(location.value.value);
      if path.Failure? {
        return Failure(path.error);
      }
      var pathFragments := Split(path.value, '/');
      if |pathFragments| == 0 {
        return Failure(IndexOutOfBounds(-1));
      }
      r := Success(pathFragments[|pathFragments| - 1]);
    }

    /**
     * upsertRegistrationInternal: PUT the registration, read the reply
     * into a new registration of the sniffed variant and cache its id
     * under its name, with the sent registration's PNS handle.
     */
    method UpsertRegistrationInternal(reg: Registration, ghost e: Env, ghost m: map<string, string>, ghost sent: seq<Request>, ghost d: RegData)
        returns (r: Result<Registration, Error>)
      requires e == Environment() && m == store && sent == transport.sent && d == reg.Data()
      modifies this`store, transport
      ensures var a := UpsertStep(e, m, sent, d);
        Value(r) == a.result && store == a.store && transport.sent == a.sent
      ensures r.Success? ==> fresh(r.value)
    {
      var response := PutEntry(reg, e, sent, d);
      r := StoreReply(response, reg.pnsHandle, e, m);
    }

    /** The second half of upsertRegistrationInternal: the reply read back and its id cached with the handle. */
    method StoreReply(response: Result<Option<string>, Error>, handle: Option<string>, ghost e: Env, ghost m: map<string, string>)
        returns (r: Result<Registration, Error>)
      requires e == Environment() && m == store
      modifies this`store
      ensures var o := UpsertOutcome(response, e.hubPath, e.hooks);
        && Value(r) == o
        && store == if o.Success? then StoreId(m, o.value.custom.name, o.value.registrationId, handle) else m
      ensures r.Success? ==> fresh(r.value)
    {
      if response.Failure? {
        return Failure(response.error);
      }
      if response.value.None? {
        return Failure(NullPointer("response"));
      }
      var loaded := ReadRegistration(response.value.value);
      if loaded.Failure? {
        return Failure(loaded.error);
      }
      var result := loaded.value;
      StoreRegistrationId(result.name, result.registrationId, handle);
      r := Success(result);
    }

    /** What the calls of this client depend on besides its store. */
    function Environment(): Env
      reads this`connection, this`hubPath
    {
      Env(connection, platform, hooks, hubPath, uriPath, transport.respond, transport.clock)
    }

    /** The id registerInternal starts from. */
    method InitialId(reg: Registration, ghost e: Env, ghost m: map<string, string>, ghost sent: seq<Request>, ghost d: RegData)
        returns (r: Result<string, Error>)
      requires e == Environment() && m == store && sent == transport.sent && d == reg.Data()
      modifies transport
      ensures (r, transport.sent) == FirstId(e, m, sent, d.custom.name)
    {
      var id := RetrieveRegistrationId(reg.name);
      if IsBlank(id) {
        r := CreateRegistrationId(e, sent);
      } else {
        r := Success(id.value);
      }
    }

    /** The retry after RegistrationGone: a new id, set on the registration, and a second upsert. */
    method UpsertWithNewId(reg: Registration, ghost e: Env, ghost m: map<string, string>, ghost sent: seq<Request>, ghost d: RegData)
        returns (r: Result<Registration, Error>)
      requires e == Environment() && m == store && sent == transport.sent && d == reg.Data()
      modifies this`store, transport, reg`registrationId
      ensures var a := Renew(e, m, sent, d);
        Value(r) == a.result && store == a.store && transport.sent == a.sent && reg.registrationId == a.id
      ensures reg.Data() == d.(registrationId := reg.registrationId)
      ensures r.Success? ==> fresh(r.value)
    {
      ghost var c := CreateStep(e, sent);
      var created := CreateRegistrationId(e, sent);
      assert created == c.0 && transport.sent == c.1;
      if created.Failure? {
        return Failure(created.error);
      }
      ghost var d' := d.(registrationId := Some(c.0.value));
      reg.registrationId := Some(created.value);
      assert reg.Data() == d';
      r := UpsertRegistrationInternal(reg, e, m, c.1, d');
    }

    /**
     * The part of registerInternal after the refresh: the cached id or a
     * new one, set on the registration, then the upsert with its retry.
     */
    method UpsertWithRetry(reg: Registration, ghost e: Env, ghost m: map<string, string>, ghost sent: seq<Request>, ghost d: RegData)
        returns (r: Result<Registration, Error>)
      requires e == Environment() && m == store && sent == transport.sent && d == reg.Data()
      modifies this`store, transport, reg`registrationId
      ensures var a := Retry(e, m, sent, d);
        Value(r) == a.result && store == a.store && transport.sent == a.sent && reg.registrationId == a.id
      ensures reg.Data() == d.(registrationId := reg.registrationId)
      ensures r.Success? ==> fresh(r.value)
    {
      ghost var f := FirstId(e, m, sent, d.custom.name);
      var id := InitialId(reg, e, m, sent, d);
      if id.Failure? {
        return Failure(id.error);
      }
      ghost var d' := d.(registrationId := Some(f.0.value));
      reg.registrationId := Some(id.value);
      assert reg.Data() == d';
      r := UpsertRetryOnGone(reg, e, m, f.1, d');
    }

    /** Lines 331-341 of registerInternal: the upsert, and a single retry with a new id on RegistrationGone. */
    method UpsertRetryOnGone(reg: Registration, ghost e: Env, ghost m: map<string, string>, ghost sent: seq<Request>, ghost d: RegData)
        returns (r: Result<Registration, Error>)
      requires e == Environment() && m == store && sent == transport.sent && d == reg.Data()
      modifies this`store, transport, reg`registrationId
      ensures var a := UpsertOrRenew(e, m, sent, d);
        Value(r) == a.result && store == a.store && transport.sent == a.sent && reg.registrationId == a.id
      ensures reg.Data() == d.(registrationId := reg.registrationId)
      ensures r.Success? ==> fresh(r.value)
    {
      ghost var a := UpsertStep(e, m, sent, d);
      var first := UpsertRegistrationInternal(reg, e, m, sent, d);
      if first != Failure(RegistrationGone) {
        return first;
      }
      r := UpsertWithNewId(reg, e, m, a.sent, d);
    }

    /** register: a blank handle is refused; otherwise the native draft goes through registerInternal. */
    method Register(pnsHandle: Option<string>, tags: Option<seq<Option<string>>>) returns (r: Result<Registration, Error>)
      modifies this`store, this`isRefreshNeeded, transport
      ensures IsBlank(pnsHandle) ==>
        && r == Failure(IllegalArgument("pnsHandle"))
        && store == old(store) && transport.sent == old(transport.sent) && isRefreshNeeded == old(isRefreshNeeded)
      ensures !IsBlank(pnsHandle) ==>
        var (a, due) := RegisterStep(old(Environment()), old(store), old(transport.sent), old(isRefreshNeeded),
                                     NativeDraft(old(hubPath), pnsHandle.value, tags));
        && Value(r) == a.result && store == a.store && transport.sent == a.sent && isRefreshNeeded == due
      ensures r.Success? ==> fresh(r.value)
    {
      if IsBlank(pnsHandle) {
        return Failure(IllegalArgument("pnsHandle"));
      }
      var registration := NewNative(hubPath, pnsHandle.value, tags);
      r := RegisterInternal(registration, Environment(), store, transport.sent, NativeDraft(hubPath, pnsHandle.value, tags));
    }

    /**
     * registerTemplate: the handle, the template name and the template are
     * checked in that order; the template draft goes through
     * registerInternal and the result is cast to a template registration.
     */
    method RegisterTemplate(pnsHandle: Option<string>, templateName: Option<string>, template: Option<string>,
                            tags: Option<seq<Option<string>>>)
        returns (r: Result<Registration, Error>)
      modifies this`store, this`isRefreshNeeded, transport
      ensures var refused := TemplateArgumentError(pnsHandle, templateName, template);
        refused.Some? ==>
          && r == Failure(refused.value)
          && store == old(store) && transport.sent == old(transport.sent) && isRefreshNeeded == old(isRefreshNeeded)
      ensures TemplateArgumentError(pnsHandle, templateName, template).None? ==>
        var (a, due) := RegisterStep(old(Environment()), old(store), old(transport.sent), old(isRefreshNeeded),
                                     TemplateDraft(old(hubPath), pnsHandle.value, templateName.value, template.value, tags));
        && Value(r) == AsTemplate(a.result) && store == a.store && transport.sent == a.sent && isRefreshNeeded == due
      ensures r.Success? ==> fresh(r.value)
    {
      if IsBlank(pnsHandle) {
        return Failure(IllegalArgument("pnsHandle"));
      }
      if IsBlank(templateName) {
        return Failure(IllegalArgument("templateName"));
      }
      if IsBlank(template) {
        return Failure(IllegalArgument("template"));
      }
      var registration := NewTemplate(hubPath, pnsHandle.value, templateName.value, template.value, tags);
      var registered := RegisterInternal(registration, Environment(), store, transport.sent,
                                         TemplateDraft(hubPath, pnsHandle.value, templateName.value, template.value, tags));
      if registered.Success? && registered.value.variant == Native {
        return Failure(ClassCast);
      }
      r := registered;
    }

    /** registerInternal: refresh the cache when a refresh is due, then upsert with a single retry. */
    method RegisterInternal(reg: Registration, ghost e: Env, ghost m: map<string, string>, ghost sent: seq<Request>,
                            ghost d: RegData)
        returns (r: Result<Registration, Error>)
      requires e == Environment() && m == store && sent == transport.sent && d == reg.Data()
      modifies this`store, this`isRefreshNeeded, transport, reg`registrationId
      ensures var (a, due) := RegisterStep(e, m, sent, old(isRefreshNeeded), d);
        && Value(r) == a.result && store == a.store && transport.sent == a.sent && reg.registrationId == a.id
        && isRefreshNeeded == due
      ensures reg.Data() == d.(registrationId := reg.registrationId)
      ensures r.Success? ==> fresh(r.value)
    {
      var prepared := RefreshIfNeeded(reg, e, m, sent, d);
      if prepared.Fail? {
        return Failure(prepared.error);
      }
      ghost var p := Prepared(e, m, sent, old(isRefreshNeeded), d);
      r := UpsertWithRetry(reg, e, p.1, p.2, d);
    }

    /** The refresh registerInternal starts with when one is due, listing the stored handle or the registration's. */
    method RefreshIfNeeded(reg: Registration, ghost e: Env, ghost m: map<string, string>, ghost sent: seq<Request>,
                           ghost d: RegData)
        returns (r: Outcome<Error>)
      requires e == Environment() && m == store && sent == transport.sent && d == reg.Data()
      modifies this`store, this`isRefreshNeeded, transport
      ensures (r, store, transport.sent) == Prepared(e, m, sent, old(isRefreshNeeded), d)
      ensures isRefreshNeeded == r.Fail?
    {
      if !isRefreshNeeded {
        return Pass;
      }
      var stored := if PnsHandleKey in store then store[PnsHandleKey] else "";
      var handle := if IsBlank(Some(stored)) then reg.pnsHandle else Some(stored);
      r := RefreshRegistrationInformation(handle, e, m, sent);
    }

    /** The PUT of the registration's printed entry to its URI. */
    method PutEntry(reg: Registration, ghost e: Env, ghost sent: seq<Request>, ghost d: RegData)
        returns (response: Result<Option<string>, Error>)
      requires e == Environment() && sent == transport.sent && d == reg.Data()
      modifies transport
      ensures var req := PutRequest(e.connection, e.platform, e.hooks, d, e.clock(|sent|));
        && transport.sent == After(sent, req)
        && response == Reply(e.respond, |sent|, req, None)
    {
      var entry := reg.ToXml(hooks);
      var content := hooks.printXml(entry);
      response := Execute(connection, transport, platform, reg.URI(), Some(content), XmlContentType, "PUT", None, []);
    }

    /** A new registration of the variant the text is sniffed as, loaded from the text. */
    method ReadRegistration(xml: string) returns (r: Result<Registration, Error>)
      ensures var o := Loaded(xml, hubPath, hooks);
        && (r.Failure? <==> o.Failure?)
        && (r.Failure? ==> r.error == o.error)
        && (r.Success? ==> fresh(r.value) && r.value.Data() == o.value)
    {
      var variant := if IsTemplateRegistration(xml, hooks.templateNode) then Template else Native;
      var result := new Registration(variant, hubPath);
      var loaded := result.LoadXml(xml, hubPath, hooks);
      if loaded.Fail? {
        return Failure(loaded.error);
      }
      r := Success(result);
    }

    /**
     * refreshRegistrationInformation: forget the cached ids, list the
     * registrations of the handle and cache the id of each; the refresh
     * flag is cleared only once every entry has been stored.
     */
    method RefreshRegistrationInformation(handle: Option<string>, ghost e: Env, ghost m: map<string, string>,
                                          ghost sent: seq<Request>)
        returns (r: Outcome<Error>)
      requires e == Environment() && m == store && sent == transport.sent
      modifies this`store, this`isRefreshNeeded, transport
      ensures (r, store, transport.sent) == RefreshStep(e, m, sent, handle)
      ensures isRefreshNeeded == (r.Fail? && old(isRefreshNeeded))
    {
      if IsBlank(handle) {
        return Fail(IllegalArgument("pnsHandle"));
      }
      RemoveKeysWithPrefix(RegistrationNamePrefix);
      var response := ListRegistrations(handle.value, e, sent);
      r := StoreEntries(response, e, Purge(m, RegistrationNamePrefix));
      if r.Pass? {
        isRefreshNeeded := false;
      }
    }

    /** The GET of the registrations whose handle node holds the handle. */
    method ListRegistrations(handle: string, ghost e: Env, ghost sent: seq<Request>) returns (response: Result<Option<string>, Error>)
      requires e == Environment() && sent == transport.sent
      modifies transport
      ensures var req := ListRequest(e.connection, e.platform, e.hooks, e.hubPath, handle, e.clock(|sent|));
        && transport.sent == After(sent, req)
        && response == Reply(e.respond, |sent|, req, None)
    {
      response := Execute(connection, transport, platform, RefreshResource(hubPath, handle, platform, hooks),
                          None, XmlContentType, "GET", None, []);
    }

    /** The loop over the listed entries: each is read back and its id cached, until one fails to load. */
    method StoreEntries(response: Result<Option<string>, Error>, ghost e: Env, ghost m: map<string, string>)
        returns (r: Outcome<Error>)
      requires e == Environment() && m == store
      modifies this`store
      ensures (r, store) == RefreshOutcome(m, response, e.hubPath, e.hooks)
    {
      if response.Failure? {
        return Fail(response.error);
      }
      if response.value.None? {
        return Fail(NullPointer("response"));
      }
      var root := hooks.parseXml(response.value.value);
      if root.None? {
        return Fail(MalformedXml);
      }
      var entries := ElementsByTagName(root.value, "entry");
      ghost var rs := EntryRecords(entries, hubPath, hooks);
      var i := 0;
      while i < |entries|
        invariant 0 <= i <= |entries|
        invariant ApplyRecords(m, rs[..i]) == (Pass, store)
      {
        r := StoreEntry(entries[i], m, rs, i);
        if r.Fail? {
          ApplyRecordsStuck(m, rs, i + 1);
          return;
        }
        i := i + 1;
      }
      assert rs[..i] == rs;
      r := Pass;
    }

    /** One turn of the feed loop: the entry is read back as a registration and its id cached. */
    method StoreEntry(entry: Element, ghost m: map<string, string>, ghost rs: seq<Result<RegData, Error>>, ghost i: nat)
        returns (r: Outcome<Error>)
      requires i < |rs| && rs[i] == Loaded(hooks.printXml(entry), hubPath, hooks)
      requires ApplyRecords(m, rs[..i]) == (Pass, store)
      modifies this`store
      ensures (r, store) == ApplyRecords(m, rs[..i + 1])
    {
      var registration := ReadRegistration(hooks.printXml(entry));
      assert rs[..i + 1][..i] == rs[..i];
      if registration.Failure? {
        return Fail(registration.error);
      }
      StoreRegistrationId(registration.value.name, registration.value.registrationId, registration.value.pnsHandle);
      r := Pass;
    }

    /**
     * unregisterAll: a refresh, then the deletion of every cached
     * registration, visiting a snapshot of the keys in an unspecified
     * order; the first failure stops it. order is the visiting order of
     * the cached names.
     */
    method UnregisterAll(pnsHandle: Option<string>) returns (r: Outcome<Error>, ghost order: seq<string>)
      modifies this`store, this`isRefreshNeeded, transport
      ensures UnregisteredAll(old(Environment()), old(store), old(transport.sent), pnsHandle, old(isRefreshNeeded),
                              order, r, store, transport.sent, isRefreshNeeded)
    {
      r, order := UnregisterAllFrom(pnsHandle, Environment(), store, transport.sent);
    }

    /** unregisterAll from the store m after the requests in sent. */
    method UnregisterAllFrom(pnsHandle: Option<string>, ghost e: Env, ghost m: map<string, string>, ghost sent: seq<Request>)
        returns (r: Outcome<Error>, ghost order: seq<string>)
      requires e == Environment() && m == store && sent == transport.sent
      modifies this`store, this`isRefreshNeeded, transport
      ensures UnregisteredAll(e, m, sent, pnsHandle, old(isRefreshNeeded), order, r, store, transport.sent, isRefreshNeeded)
    {
      ghost var f := RefreshStep(e, m, sent, pnsHandle);
      order := [];
      r := RefreshRegistrationInformation(pnsHandle, e, m, sent);
      if r.Fail? {
        return;
      }
      r, order := DeleteCached(e, f.1, f.2);
    }

    /** The loop of unregisterAll over a snapshot of the keys. */
    method DeleteCached(ghost e: Env, ghost m: map<string, string>, ghost sent: seq<Request>)
        returns (r: Outcome<Error>, ghost order: seq<string>)
      requires e == Environment() && m == store && sent == transport.sent
      modifies this`store, transport
      ensures DeletedInOrder(e, m, sent, order, r, store, transport.sent)
    {
      var keys := store.Keys;
      order := [];
      r := Pass;
      while keys != {}
        invariant keys <= m.Keys
        invariant CachedNames(order, m)
        invariant forall k :: k in order ==> k !in keys
        invariant forall k :: k in m && k !in keys && StartsWith(k, RegistrationNamePrefix) ==> k in order
        invariant r == Pass && (r, store, transport.sent) == DeleteKeys(e, m, sent, order)
        invariant forall k :: k in keys ==> k in store && store[k] == m[k]
        decreases |keys|
      {
        var key :| key in keys;
        keys := keys - {key};
        if StartsWith(key, RegistrationNamePrefix) {
          ghost var visited := order;
          CachedNamesSnoc(order, key, m);
          order := order + [key];
          r := DeleteCachedKey(key, e, m, sent, visited, order);
          if r.Fail? {
            DeleteKeysStore(e, m, sent, order);
            return;
          }
        }
      }
      DeleteKeysStore(e, m, sent, order);
    }

    /** One turn of unregisterAll's loop: the registration cached under key is deleted. */
    method DeleteCachedKey(key: string, ghost e: Env, ghost m: map<string, string>, ghost sent: seq<Request>,
                           ghost visited: seq<string>, ghost order: seq<string>)
        returns (r: Outcome<Error>)
      requires e == Environment() && StartsWith(key, RegistrationNamePrefix) && order == visited + [key]
      requires (Pass, store, transport.sent) == DeleteKeys(e, m, sent, visited)
      modifies this`store, transport
      ensures (r, store, transport.sent) == DeleteKeys(e, m, sent, order)
      ensures store == old(store) - {key}
    {
      var id := if key in store then store[key] else "";
      NameKeyOfSuffix(key);
      assert order[..|visited|] == visited;
      r := DeleteRegistrationInternal(Some(key[|RegistrationNamePrefix|..]), id, e, transport.sent);
    }

    /** deleteRegistrationInternal: DELETE with If-Match *, and forget the name whatever the reply. */
    method DeleteRegistrationInternal(name: Option<string>, id: string, ghost e: Env, ghost sent: seq<Request>)
        returns (r: Outcome<Error>)
      requires e == Environment() && sent == transport.sent
      modifies this`store, transport
      ensures (r, transport.sent) == DeleteStep(e, sent, id)
      ensures store == old(store) - {NameKey(name)}
    {
      var response := Execute(connection, transport, platform, hubPath + "/Registrations/" + id, None, XmlContentType,
                              "DELETE", None, [Header("If-Match", "*")]);
      RemoveRegistrationId(name);
      r := Done(response);
    }

    /** unregisterInternal: delete the cached registration of that name; without a cached id nothing happens. */
    method UnregisterInternal(name: Option<string>) returns (r: Outcome<Error>)
      modifies this`store, transport
      ensures IsBlank(old(RetrieveRegistrationId(name))) ==> r == Pass && store == old(store) && transport.sent == old(transport.sent)
      ensures !IsBlank(old(RetrieveRegistrationId(name))) ==>
        && (r, transport.sent) == DeleteStep(old(Environment()), old(transport.sent), old(RetrieveRegistrationId(name)).value)
        && store == old(store) - {NameKey(name)}
    {
      var id := RetrieveRegistrationId(name);
      if !IsBlank(id) {
        r := DeleteRegistrationInternal(name, id.value, Environment(), transport.sent);
      } else {
        r := Pass;
      }
    }

    /** unregister: the native registration has the default name. */
    method Unregister() returns (r: Outcome<Error>)
      modifies this`store, transport
      ensures IsBlank(old(RetrieveRegistrationId(Some(DefaultRegistrationName)))) ==>
        r == Pass && store == old(store) && transport.sent == old(transport.sent)
      ensures !IsBlank(old(RetrieveRegistrationId(Some(DefaultRegistrationName)))) ==>
        && (r, transport.sent) == DeleteStep(old(Environment()), old(transport.sent),
                                             old(RetrieveRegistrationId(Some(DefaultRegistrationName))).value)
        && store == old(store) - {NameKey(Some(DefaultRegistrationName))}
    {
      r := UnregisterInternal(Some(DefaultRegistrationName));
    }

    /** unregisterTemplate: a blank template name is refused before anything is looked up. */
    method UnregisterTemplate(templateName: Option<string>) returns (r: Outcome<Error>)
      modifies this`store, transport
      ensures IsBlank(templateName) ==>
        r == Fail(IllegalArgument("templateName")) && store == old(store) && transport.sent == old(transport.sent)
      ensures !IsBlank(templateName) && IsBlank(old(RetrieveRegistrationId(templateName))) ==>
        r == Pass && store == old(store) && transport.sent == old(transport.sent)
      ensures !IsBlank(templateName) && !IsBlank(old(RetrieveRegistrationId(templateName))) ==>
        && (r, transport.sent) == DeleteStep(old(Environment()), old(transport.sent), old(RetrieveRegistrationId(templateName)).value)
        && store == old(store) - {NameKey(templateName)}
    {
      if IsBlank(templateName) {
        return Fail(IllegalArgument("templateName"));
      }
      r := UnregisterInternal(templateName);
    }
  }
}
