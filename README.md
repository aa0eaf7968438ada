# Notification Hubs Android client: registration lifecycle

This project models the device side of the Azure Notification Hubs Android
client in Dafny. The model covers three parts:

- **`NotificationHub`** keeps a local cache of registration ids. The cache
  is a SharedPreferences map with three kinds of key:
  `__NH_REG_NAME_<name>` → id, `__NH_PNS_HANDLE` and `__NH_STORAGE_VERSION`.
  The client reconciles that cache with the hub by:
  - discarding it on a storage-version mismatch;
  - refreshing it from the hub's list of registrations for a PNS handle;
  - registering with a create-or-update (a POST for a new id, then a PUT)
    and a single retry on 410 Gone;
  - unregistering, where the cached entry is removed whatever the DELETE
    returns.
- **`Registration`** is the registration record and its Atom entry. `toXml`
  builds `entry(id, updated, content(payload(ETag, ExpirationTime,
  RegistrationId, Tags, custom payload)))` and leaves out every blank field.
  `loadXml` reads the fields back. Tags are joined with `,` on write and
  split on read. The model also covers `getURI`, `addTags`, and the string
  rewrite done by `UTCDateStringToDate`.
- **`Connection`** builds every request and classifies every response. It
  forces the scheme to `https`, adds a trailing `/` and the
  `api-version=2014-09` query parameter, and substitutes an empty body for a
  verb that needs one. It signs with a `SharedAccessSignature` token that
  expires 300 seconds after the clock reading. Responses map to a value,
  to `ResourceNotFound` (404), to `Unauthorized` (401), to
  `RegistrationGone` (410), or to `NotificationHubException`.

Modules: `Wrappers` (Option, Result, Outcome), `Errors` (the exceptions),
`Strings` (Java `trim`, `split`, `contains`, `replace`, `join`), `Xml` (element
trees and `getElementsByTagName`), `Connection`, `Registrations`, `Hub` and
`RegisterFlow`. `RegisterFlow` holds lemmas about which requests
registerInternal sends and how the hub's replies drive it.

Several outside pieces are parameters of the model:

- The hub's replies are `Transport.respond`, a function of the call number
  and the request. The clock is `Transport.clock`, a function of the call
  number in milliseconds. `Transport.sent` records every request in order.
- URL encoding, HMAC-SHA256, Base64 and the User-Agent string are fields of
  a `Platform` value and stay uninterpreted. So is the part of the
  `java.net.URI` grammar not written out (legal characters, escapes, the
  authority): `Platform.uriAccepts` says whether the parser accepts a string.
- DOM parsing and printing are functions in `Hooks`. So are the parts that
  the GCM native and template subclasses supply: the payload element name per
  variant, the template marker node, the handle node, and the custom payload
  they write and read.
- `ConnectionStringParser.parse` is a function from the string to an
  optional map.
- `new URI(s).getPath()` is a function that returns the path or the
  exception.

`Utils.isNullOrWhiteSpace` is not part of this model. `Strings.IsBlank`
reads it as "null, or every character is `<= ' '`", which is Java's `trim()`
notion of white space.

## Model

| member | source | states |
|---|---|---|
| Connection.Scheme | notification-hubs-sdk/src/main/java/com/microsoft/windowsazure/messaging/Connection.java:216-217 | the scheme is a nonempty prefix of the URI that ends just before its first `:`, and no character before that `:` is `:`, `/`, `?` or `#` |
| Connection.RefusedEndpoints | notification-hubs-sdk/src/main/java/com/microsoft/windowsazure/messaging/Connection.java:216 | `URI.create` refuses `1sb://h/` (illegal scheme name), `:h` (empty scheme name) and `sb:` (empty scheme-specific part), whatever the platform parser says |
| Connection.ResourceUrl | notification-hubs-sdk/src/main/java/com/microsoft/windowsazure/messaging/Connection.java:216-225 | fails exactly when the endpoint is missing (NullPointerException), is refused by `URI.create` (illegal scheme name, empty scheme-specific part, or the platform parser's verdict), or has no scheme (NullPointerException), with that error in that order; otherwise the URL has scheme `https`, starts with `https` + the endpoint minus its scheme, ends with `/` + resource, and is one character longer exactly when the endpoint did not end in `/` |
| Connection.HttpsUrl | notification-hubs-sdk/src/main/java/com/microsoft/windowsazure/messaging/Connection.java:219-225 | the built URL has scheme `https`, starts with `https` followed by the endpoint from its scheme's `:` on, ends with `/` + resource, and has a `/` inserted exactly when the endpoint did not end in one |
| Connection.AddApiVersionToUrl | notification-hubs-sdk/src/main/java/com/microsoft/windowsazure/messaging/Connection.java:257-269 | the result is the URL followed by one separator and `api-version=2014-09`; the separator is `?` if and only if `getQuery()` is null (no `?` before a fragment, or an opaque URL), `&` if and only if there is a query |
| Connection.ApiVersionMakesQuery | notification-hubs-sdk/src/main/java/com/microsoft/windowsazure/messaging/Connection.java:257-269 | once api-version is added to a URL without a fragment, the URL has a query if and only if it is hierarchical; an opaque URL stays opaque and still has no query |
| Connection.OpaqueHasNoQuery | notification-hubs-sdk/src/main/java/com/microsoft/windowsazure/messaging/Connection.java:258-262 | an opaque URL such as `https:h/?x` has no query, so `?` is appended even though it holds a `?` |
| Connection.RequestBody | notification-hubs-sdk/src/main/java/com/microsoft/windowsazure/messaging/Connection.java:231-235 | no body if and only if there is no content and the verb does not require one; given content, the body is that content with the content type; a body-requiring verb without content gets an empty body with no media type |
| Connection.Expiry | notification-hubs-sdk/src/main/java/com/microsoft/windowsazure/messaging/Connection.java:365-368 | the expiry in seconds is the clock's milliseconds / 1000 + 300 |
| Connection.AuthToken | notification-hubs-sdk/src/main/java/com/microsoft/windowsazure/messaging/Connection.java:347-356 | fails if and only if the key name or the key is blank, with an AssertionError naming the key name first, then the key |
| Connection.ParseFormatToken | notification-hubs-sdk/src/main/java/com/microsoft/windowsazure/messaging/Connection.java:394 | the token text `SharedAccessSignature sr=…&sig=…&se=…&skn=…` reads back as exactly the four fields it was written from when sr, sig and se hold no `&` |
| Connection.AuthTokenFields | notification-hubs-sdk/src/main/java/com/microsoft/windowsazure/messaging/Connection.java:358-394 | a generated token has sr = lower-cased URL-encoded URL, se = now + 300 s, skn = the key name, and sig = the signature of exactly `sr + "\n" + se` under the key |
| Connection.HeaderValues | notification-hubs-sdk/src/main/java/com/microsoft/windowsazure/messaging/Connection.java:294 | the values are exactly those of the headers whose name matches, ignoring ASCII case: none for no headers, the header's value or nothing for one header |
| Connection.HeaderValuesAppend | notification-hubs-sdk/src/main/java/com/microsoft/windowsazure/messaging/Connection.java:294 | the values of two runs of headers are those of the first run followed by those of the second, so with HeaderValues's one-header case the list is fixed, in header order |
| Connection.HeaderValuesFirst | notification-hubs-sdk/src/main/java/com/microsoft/windowsazure/messaging/Connection.java:294-298 | the first value is the value of the first header bearing the name |
| Connection.Classify | notification-hubs-sdk/src/main/java/com/microsoft/windowsazure/messaging/Connection.java:283-316 | success if and only if the status is 2xx and any target header is present; the value is the body, or the header's first value; 410/404/401 map to RegistrationGone/ResourceNotFound/Unauthorized in both directions; any other non-2xx status maps to NotificationHubException(body, status); a 2xx status fails only for a missing target header |
| Connection.ClassifyFirstHeader | notification-hubs-sdk/src/main/java/com/microsoft/windowsazure/messaging/Connection.java:294-298 | a 2xx reply gives the value of the first header whose name matches the target, ignoring ASCII case |
| Connection.BuildRequest | notification-hubs-sdk/src/main/java/com/microsoft/windowsazure/messaging/Connection.java:215-246 | the request is built if and only if the endpoint parses and has a scheme and the key name and key are not blank; a failure is a NullPointerException, a URI syntax error or an AssertionError; its URL is the resource URL with api-version, its body is RequestBody's, and its headers are the extra headers, then User-Agent, then Authorization holding the token for that same URL |
| Connection.SignedUrlIsRequestUrl | notification-hubs-sdk/src/main/java/com/microsoft/windowsazure/messaging/Connection.java:226-242 | the token's sr field is the encoded form of the exact URL requested, including the api-version query |
| Connection.Transport.Send | notification-hubs-sdk/src/main/java/com/microsoft/windowsazure/messaging/Connection.java:289 | the request is appended to the trace and the reply is the oracle's reply for that call number |
| Connection.Execute | notification-hubs-sdk/src/main/java/com/microsoft/windowsazure/messaging/Connection.java:215-246 | a request that cannot be built sends nothing and returns the build error; otherwise exactly that request is sent and the result is the classification of the reply |
| Xml.NodeValue | notification-hubs-sdk/src/main/java/com/microsoft/windowsazure/messaging/Registration.java:259-266 | null if and only if no element below bears the name; otherwise the text content of the first one |
| Registrations.NodeWithValue | notification-hubs-sdk/src/main/java/com/microsoft/windowsazure/messaging/Registration.java:194-200 | no element if and only if the value is null or blank; otherwise one childless element holding the value |
| Registrations.TagsNode | notification-hubs-sdk/src/main/java/com/microsoft/windowsazure/messaging/Registration.java:171-184 | no element if and only if there are no tags; otherwise one `Tags` element whose text is the tags in order joined by `,` |
| Registrations.TagsText | notification-hubs-sdk/src/main/java/com/microsoft/windowsazure/messaging/Registration.java:172-178 | the StringBuilder loop yields the tags joined by `,` |
| Registrations.PayloadOrder | notification-hubs-sdk/src/main/java/com/microsoft/windowsazure/messaging/Registration.java:149-154 | the payload's children are ETag, ExpirationTime, RegistrationId (each only when not blank), Tags (only with tags), then the custom payload |
| Registrations.EntryOrder | notification-hubs-sdk/src/main/java/com/microsoft/windowsazure/messaging/Registration.java:125-127 | the entry holds `id` (the URI is never blank), `updated` unless blank, then `content` |
| Registrations.Registration.ToXml | notification-hubs-sdk/src/main/java/com/microsoft/windowsazure/messaging/Registration.java:110-131 | the element built step by step is the entry of the registration's current fields |
| Registrations.LoadFieldsEffect | notification-hubs-sdk/src/main/java/com/microsoft/windowsazure/messaging/Registration.java:215-235 | without a payload element only the hub path and the updated date change; with one, uri = hub path + `/Registrations/` + id and the read tags are appended after the existing ones |
| Registrations.Registration.LoadXml | notification-hubs-sdk/src/main/java/com/microsoft/windowsazure/messaging/Registration.java:208-236 | a document that does not parse changes nothing and raises; otherwise the fields become what LoadFields reads from the document |
| Registrations.Registration.LoadPayloadXml | notification-hubs-sdk/src/main/java/com/microsoft/windowsazure/messaging/Registration.java:219-235 | the fields read from the payload element: ETag, ExpirationTime, RegistrationId, the derived uri, the appended tags, the variant's own fields |
| Registrations.EntryLookup | notification-hubs-sdk/src/main/java/com/microsoft/windowsazure/messaging/Registration.java:218-220 | in a written entry, the first element with the payload's name is the payload |
| Registrations.EntryUpdated | notification-hubs-sdk/src/main/java/com/microsoft/windowsazure/messaging/Registration.java:216 | in a written entry, `updated` reads back as the updated date, or null when it was blank |
| Registrations.EtagRead | notification-hubs-sdk/src/main/java/com/microsoft/windowsazure/messaging/Registration.java:221 | the payload's ETag reads back as written, or null when blank |
| Registrations.ExpirationRead | notification-hubs-sdk/src/main/java/com/microsoft/windowsazure/messaging/Registration.java:222 | the payload's ExpirationTime reads back as written, or null when blank |
| Registrations.IdRead | notification-hubs-sdk/src/main/java/com/microsoft/windowsazure/messaging/Registration.java:223 | the payload's RegistrationId reads back as written, or null when blank |
| Registrations.TagsFieldRead | notification-hubs-sdk/src/main/java/com/microsoft/windowsazure/messaging/Registration.java:225-231 | the payload's Tags read back as the written list when no tag is empty, holds `,` or starts or ends with white space |
| Registrations.TagsTextRead | notification-hubs-sdk/src/main/java/com/microsoft/windowsazure/messaging/Registration.java:173-178 | the joined text of such tags is not blank, and trim then split on `,` gives the tags back |
| Strings.SplitTrimJoin | notification-hubs-sdk/src/main/java/com/microsoft/windowsazure/messaging/Registration.java:227-228 | trim then split on the separator inverts the join for such tags |
| Registrations.XmlRoundTrip | notification-hubs-sdk/src/main/java/com/microsoft/windowsazure/messaging/Registration.java:110-236 | when the custom payload uses none of the base element names and the tags are plain, loadXml of toXml's entry gives back the id, ETag, expiration and updated date (a blank one as null), the tags, and uri = new hub path + `/Registrations/` + id |
| Registrations.Registration.URI | notification-hubs-sdk/src/main/java/com/microsoft/windowsazure/messaging/Registration.java:330-332 | the URI is the hub path + `/Registrations/` + the id (`null` when there is none) |
| Registrations.Registration.GetTags | notification-hubs-sdk/src/main/java/com/microsoft/windowsazure/messaging/Registration.java:323-325 | returns the tags as a value and changes nothing |
| Registrations.NonBlankTags | notification-hubs-sdk/src/main/java/com/microsoft/windowsazure/messaging/Registration.java:431-439 | a null array gives nothing; otherwise the kept tags of the array: every kept tag is non-blank and every non-blank entry is kept |
| Registrations.KeptTags | notification-hubs-sdk/src/main/java/com/microsoft/windowsazure/messaging/Registration.java:433-437 | no entries give no tags; one entry gives its text unless it is null or blank; no more tags than entries, each non-blank, and every non-blank entry kept |
| Registrations.KeptTagsAppend | notification-hubs-sdk/src/main/java/com/microsoft/windowsazure/messaging/Registration.java:433-437 | the tags kept from two runs of entries are those of the first run followed by those of the second, so with the one-entry case the kept tags are the non-blank entries, each once, in order |
| Registrations.Registration.AddTags | notification-hubs-sdk/src/main/java/com/microsoft/windowsazure/messaging/Registration.java:431-439 | the non-blank tags are appended in order and no other field changes |
| Registrations.Registration.constructor | notification-hubs-sdk/src/main/java/com/microsoft/windowsazure/messaging/Registration.java:273-276 | a new registration has the hub path, no tags and every other field null |
| Registrations.UtcDateRewrite | notification-hubs-sdk/src/main/java/com/microsoft/windowsazure/messaging/Registration.java:354-364 | after every `Z` becomes `+00:00`, a string shorter than 27 characters fails with ParseException at offset 26; otherwise exactly the character at index 26 is removed |
| Registrations.UtcDateRewriteMillis | notification-hubs-sdk/src/main/java/com/microsoft/windowsazure/messaging/Registration.java:357-361 | a millisecond timestamp ending in `Z` becomes the same stamp followed by `+0000` |
| Registrations.UtcDateRewriteShort | notification-hubs-sdk/src/main/java/com/microsoft/windowsazure/messaging/Registration.java:357-363 | a date string with no `Z` shorter than 27 characters is refused |
| Hub.NameKey | notification-hubs-sdk/src/main/java/com/microsoft/windowsazure/messaging/NotificationHub.java:418 | a name's key starts with `__NH_REG_NAME_` |
| Hub.KeysDistinct | notification-hubs-sdk/src/main/java/com/microsoft/windowsazure/messaging/NotificationHub.java:51-76 | name keys, the PNS handle key and the version key never collide; all start with `__NH_`, and only name keys start with `__NH_REG_NAME_` |
| Hub.NameKeyOfSuffix | notification-hubs-sdk/src/main/java/com/microsoft/windowsazure/messaging/NotificationHub.java:202-203 | the name cut from a name key gives that key back |
| Hub.Put | notification-hubs-sdk/src/main/java/com/microsoft/windowsazure/messaging/NotificationHub.java:430-435 | putString sets the key (a null value removes it) and no other key changes |
| Hub.StoreId | notification-hubs-sdk/src/main/java/com/microsoft/windowsazure/messaging/NotificationHub.java:427-438 | exactly three keys change: name → id, PNS handle, version `1.0.0` |
| Hub.Purge | notification-hubs-sdk/src/main/java/com/microsoft/windowsazure/messaging/NotificationHub.java:459-465 | a key stays if and only if it was there and lacks the prefix, with its value unchanged |
| Hub.PurgeNames | notification-hubs-sdk/src/main/java/com/microsoft/windowsazure/messaging/NotificationHub.java:217-225 | dropping name keys leaves none and keeps the PNS handle and the version |
| Hub.PurgeStorage | notification-hubs-sdk/src/main/java/com/microsoft/windowsazure/messaging/NotificationHub.java:458-466 | a version purge removes every name key, the handle and the version |
| Hub.IsTemplateRegistration | notification-hubs-sdk/src/main/java/com/microsoft/windowsazure/messaging/NotificationHub.java:473-475 | holds if and only if `"<"` + the template node occurs somewhere in the text |
| Hub.LastSegment | notification-hubs-sdk/src/main/java/com/microsoft/windowsazure/messaging/NotificationHub.java:392-394 | fails with index -1 if and only if the path is nonempty and all slashes; otherwise a segment free of `/`, empty exactly for the empty path |
| Hub.SplitEmptyIff | notification-hubs-sdk/src/main/java/com/microsoft/windowsazure/messaging/NotificationHub.java:392 | split gives no pieces if and only if the string is nonempty and made only of the separator |
| Hub.NewId | notification-hubs-sdk/src/main/java/com/microsoft/windowsazure/messaging/NotificationHub.java:389-394 | a failed POST's error propagates; otherwise the id is the last segment of the Location URI's path |
| Hub.Loaded | notification-hubs-sdk/src/main/java/com/microsoft/windowsazure/messaging/NotificationHub.java:371-378 | fails with malformed XML if and only if the text does not parse; the loaded variant is the sniffed one and the hub path is the client's |
| Hub.UpsertOutcome | notification-hubs-sdk/src/main/java/com/microsoft/windowsazure/messaging/NotificationHub.java:369-378 | a PUT error propagates, and the result is RegistrationGone if and only if the PUT's was |
| Hub.EntryRecords | notification-hubs-sdk/src/main/java/com/microsoft/windowsazure/messaging/NotificationHub.java:245-256 | one loaded record per feed entry, each from the entry's printed text |
| Hub.ApplyRecord | notification-hubs-sdk/src/main/java/com/microsoft/windowsazure/messaging/NotificationHub.java:256-258 | a record that failed to load raises and changes nothing; a loaded one is stored with its name, id and handle |
| Hub.ApplyRecordsPass | notification-hubs-sdk/src/main/java/com/microsoft/windowsazure/messaging/NotificationHub.java:246-259 | the pass over the feed succeeds if and only if every entry loaded |
| Hub.ApplyRecordsStuck | notification-hubs-sdk/src/main/java/com/microsoft/windowsazure/messaging/NotificationHub.java:246-259 | after the first entry that fails, later entries change nothing |
| Hub.ApplyRecordsKeys | notification-hubs-sdk/src/main/java/com/microsoft/windowsazure/messaging/NotificationHub.java:246-259 | only the handle key, the version key and the loaded entries' name keys change |
| Hub.ApplyRecordsStores | notification-hubs-sdk/src/main/java/com/microsoft/windowsazure/messaging/NotificationHub.java:246-259 | after a successful pass, each name maps to the id of the last entry bearing it (no key for a null id) |
| Hub.Renew | notification-hubs-sdk/src/main/java/com/microsoft/windowsazure/messaging/NotificationHub.java:339-341 | a retry that fails leaves the store as it was |
| Hub.RefreshHandle | notification-hubs-sdk/src/main/java/com/microsoft/windowsazure/messaging/NotificationHub.java:317-321 | the stored PNS handle unless it is blank, otherwise the registration's |
| Hub.DeleteKeysStore | notification-hubs-sdk/src/main/java/com/microsoft/windowsazure/messaging/NotificationHub.java:199-208 | deleting removes only visited keys, never other keys, and all visited keys when no deletion failed |
| Hub.DeleteKeysTrace | notification-hubs-sdk/src/main/java/com/microsoft/windowsazure/messaging/NotificationHub.java:199-208 | the deletions send only DELETEs, at most one per key, after what was sent before |
| Hub.DeleteStepTrace | notification-hubs-sdk/src/main/java/com/microsoft/windowsazure/messaging/NotificationHub.java:400-405 | a deletion sends at most one request, a DELETE |
| Hub.TemplateArgumentError | notification-hubs-sdk/src/main/java/com/microsoft/windowsazure/messaging/NotificationHub.java:149-160 | registerTemplate refuses an argument if and only if the handle, template name or template is blank, with IllegalArgumentException |
| Hub.AsTemplate | notification-hubs-sdk/src/main/java/com/microsoft/windowsazure/messaging/NotificationHub.java:168 | the cast succeeds exactly on a template registration, which it returns unchanged; errors pass through |
| Hub.CheckConnectionString | notification-hubs-sdk/src/main/java/com/microsoft/windowsazure/messaging/NotificationHub.java:274-287 | a blank or unparsable connection string is refused with IllegalArgumentException; otherwise the parsed map |
| Hub.VerifiedStore | notification-hubs-sdk/src/main/java/com/microsoft/windowsazure/messaging/NotificationHub.java:453-466 | a current version leaves the store alone; otherwise exactly the `__NH_` keys are removed and every other key keeps its value |
| Hub.Create | notification-hubs-sdk/src/main/java/com/microsoft/windowsazure/messaging/NotificationHub.java:107-118 | the connection string is checked first, then the path; a new client has the verified store and a refresh due |
| Hub.NotificationHub.constructor | notification-hubs-sdk/src/main/java/com/microsoft/windowsazure/messaging/NotificationHub.java:107-118 | the store is the verified store and isRefreshNeeded is true whether or not the version matched |
| Hub.NotificationHub.SetConnectionString | notification-hubs-sdk/src/main/java/com/microsoft/windowsazure/messaging/NotificationHub.java:274-287 | a blank or unparsable string is refused and leaves the string and the parsed connection unchanged; an accepted one replaces both |
| Hub.NotificationHub.SetNotificationHubPath | notification-hubs-sdk/src/main/java/com/microsoft/windowsazure/messaging/NotificationHub.java:299-306 | a blank path is refused and leaves the path unchanged; any other path replaces it |
| Hub.NotificationHub.RemoveKeysWithPrefix | notification-hubs-sdk/src/main/java/com/microsoft/windowsazure/messaging/NotificationHub.java:459-465 | the loop over the key snapshot leaves the store purged of the prefix |
| Hub.NotificationHub.VerifyStorageVersion | notification-hubs-sdk/src/main/java/com/microsoft/windowsazure/messaging/NotificationHub.java:453-471 | the store becomes the verified store and isRefreshNeeded is true in every case |
| Hub.NotificationHub.RetrieveRegistrationId | notification-hubs-sdk/src/main/java/com/microsoft/windowsazure/messaging/NotificationHub.java:417-419 | the id cached under the name's key, or null when there is no key |
| Hub.NotificationHub.StoreRegistrationId | notification-hubs-sdk/src/main/java/com/microsoft/windowsazure/messaging/NotificationHub.java:427-438 | the store becomes StoreId of the old store |
| Hub.NotificationHub.RemoveRegistrationId | notification-hubs-sdk/src/main/java/com/microsoft/windowsazure/messaging/NotificationHub.java:445-451 | only the name's key is removed |
| Hub.NotificationHub.CreateRegistrationId | notification-hubs-sdk/src/main/java/com/microsoft/windowsazure/messaging/NotificationHub.java:385-395 | the POST is sent and the result is the last path segment of the Location header, or the error |
| Hub.NotificationHub.UpsertRegistrationInternal | notification-hubs-sdk/src/main/java/com/microsoft/windowsazure/messaging/NotificationHub.java:363-383 | one PUT of the entry; the store changes only when the reply was read back, caching the returned name and id with the sent handle |
| Hub.NotificationHub.StoreReply | notification-hubs-sdk/src/main/java/com/microsoft/windowsazure/messaging/NotificationHub.java:371-382 | the reply read back into a new registration of the sniffed variant, and its id cached |
| Hub.NotificationHub.PutEntry | notification-hubs-sdk/src/main/java/com/microsoft/windowsazure/messaging/NotificationHub.java:364-369 | the PUT carries the printed entry to the registration's URI |
| Hub.NotificationHub.ReadRegistration | notification-hubs-sdk/src/main/java/com/microsoft/windowsazure/messaging/NotificationHub.java:372-378 | a new registration of the sniffed variant loaded from the text, or the parse error |
| Hub.NotificationHub.InitialId | notification-hubs-sdk/src/main/java/com/microsoft/windowsazure/messaging/NotificationHub.java:326-329 | the cached id when it is not blank, with nothing sent; otherwise a new id |
| Hub.NotificationHub.UpsertWithNewId | notification-hubs-sdk/src/main/java/com/microsoft/windowsazure/messaging/NotificationHub.java:339-341 | a new id is set on the registration and a second PUT's result is returned |
| Hub.NotificationHub.UpsertWithRetry | notification-hubs-sdk/src/main/java/com/microsoft/windowsazure/messaging/NotificationHub.java:326-341 | the cached id or a new one is set on the registration, then the upsert with its single retry; result, store and trace are Retry's |
| Hub.NotificationHub.UpsertRetryOnGone | notification-hubs-sdk/src/main/java/com/microsoft/windowsazure/messaging/NotificationHub.java:331-341 | the upsert's result unless it is RegistrationGone; then a new id is set on the registration and the second upsert's result, store and trace are returned |
| Hub.NotificationHub.RefreshIfNeeded | notification-hubs-sdk/src/main/java/com/microsoft/windowsazure/messaging/NotificationHub.java:316-324 | a refresh of the stored or the registration's handle exactly when one is due; a refresh stays due exactly when it failed |
| Hub.NotificationHub.RegisterInternal | notification-hubs-sdk/src/main/java/com/microsoft/windowsazure/messaging/NotificationHub.java:314-342 | the refresh if due, then the upsert with its single retry; the result, store, trace and flag are RegisterStep's |
| Hub.NewNative | notification-hubs-sdk/src/main/java/com/microsoft/windowsazure/messaging/NotificationHub.java:132-135 | a new native registration holding the handle, the `$Default` name and the non-blank tags, and nothing else |
| Hub.NewTemplate | notification-hubs-sdk/src/main/java/com/microsoft/windowsazure/messaging/NotificationHub.java:162-166 | a new template registration holding the handle, the template name, the body template and the non-blank tags |
| Hub.NotificationHub.Register | notification-hubs-sdk/src/main/java/com/microsoft/windowsazure/messaging/NotificationHub.java:127-138 | a blank handle fails with nothing stored, sent or flagged; otherwise the native `$Default` draft with its non-blank tags is registered |
| Hub.NotificationHub.RegisterTemplate | notification-hubs-sdk/src/main/java/com/microsoft/windowsazure/messaging/NotificationHub.java:149-169 | a blank handle, name or template fails before any change; otherwise the template draft is registered and the result cast to a template |
| Hub.NotificationHub.RefreshRegistrationInformation | notification-hubs-sdk/src/main/java/com/microsoft/windowsazure/messaging/NotificationHub.java:211-262 | a blank handle fails before any change; otherwise name keys are dropped, one GET is sent, each entry is stored, and the flag is cleared only on success |
| Hub.NotificationHub.ListRegistrations | notification-hubs-sdk/src/main/java/com/microsoft/windowsazure/messaging/NotificationHub.java:228-234 | one GET filtered on the handle node equal to the handle |
| Hub.NotificationHub.StoreEntries | notification-hubs-sdk/src/main/java/com/microsoft/windowsazure/messaging/NotificationHub.java:236-259 | the loop stores each entry in order and stops at the first entry that fails to load |
| Hub.NotificationHub.StoreEntry | notification-hubs-sdk/src/main/java/com/microsoft/windowsazure/messaging/NotificationHub.java:247-258 | one turn of the feed loop: the entry is read back and its id cached exactly as the next step of the recorded fold, and a load failure leaves the store as it was |
| Hub.NotificationHub.UnregisterAll | notification-hubs-sdk/src/main/java/com/microsoft/windowsazure/messaging/NotificationHub.java:196-209 | a failed refresh stops it; otherwise the cached names are deleted in visiting order until the first failure, and with no failure no name key is left |
| Hub.NotificationHub.UnregisterAllFrom | notification-hubs-sdk/src/main/java/com/microsoft/windowsazure/messaging/NotificationHub.java:196-209 | from a given store and trace: the refresh first, and on its success the deletions of the refreshed cache in visiting order, with the refresh no longer due |
| Hub.NotificationHub.DeleteCached | notification-hubs-sdk/src/main/java/com/microsoft/windowsazure/messaging/NotificationHub.java:199-208 | visits distinct cached names, deleting each; when none fails, all of them are visited and none is left |
| Hub.NotificationHub.DeleteCachedKey | notification-hubs-sdk/src/main/java/com/microsoft/windowsazure/messaging/NotificationHub.java:202-206 | the registration cached under the key is deleted and the key removed |
| Hub.NotificationHub.DeleteRegistrationInternal | notification-hubs-sdk/src/main/java/com/microsoft/windowsazure/messaging/NotificationHub.java:400-409 | a DELETE with `If-Match: *`; the name's key is removed whether it succeeds or fails |
| Hub.NotificationHub.UnregisterInternal | notification-hubs-sdk/src/main/java/com/microsoft/windowsazure/messaging/NotificationHub.java:349-355 | with no cached id or a blank one nothing is sent or changed; otherwise that id is deleted and its key removed |
| Hub.NotificationHub.Unregister | notification-hubs-sdk/src/main/java/com/microsoft/windowsazure/messaging/NotificationHub.java:174-176 | unregisterInternal of `$Default` |
| Hub.NotificationHub.UnregisterTemplate | notification-hubs-sdk/src/main/java/com/microsoft/windowsazure/messaging/NotificationHub.java:183-189 | a blank template name fails before anything is looked up; otherwise unregisterInternal of the name |
| RegisterFlow.CreateStepShape | notification-hubs-sdk/src/main/java/com/microsoft/windowsazure/messaging/NotificationHub.java:385-389 | createRegistrationId sends exactly one POST when the request can be built, otherwise nothing and fails |
| RegisterFlow.UpsertStepShape | notification-hubs-sdk/src/main/java/com/microsoft/windowsazure/messaging/NotificationHub.java:363-383 | one PUT; the result is RegistrationGone if and only if that PUT was answered 410; the store changes only on success |
| RegisterFlow.FirstIdShape | notification-hubs-sdk/src/main/java/com/microsoft/windowsazure/messaging/NotificationHub.java:326-329 | a non-blank cached id is used with no request sent (no createRegistrationId before the first upsert); otherwise exactly one POST |
| RegisterFlow.RenewShape | notification-hubs-sdk/src/main/java/com/microsoft/windowsazure/messaging/NotificationHub.java:339-341 | the retry sends one POST and at most one PUT after it |
| RegisterFlow.RetryOffline | notification-hubs-sdk/src/main/java/com/microsoft/windowsazure/messaging/NotificationHub.java:326-341 | without usable credentials nothing is sent and the registration fails |
| RegisterFlow.RetryTrace | notification-hubs-sdk/src/main/java/com/microsoft/windowsazure/messaging/NotificationHub.java:326-341 | the requests follow POST (only for a missing id), PUT, POST, PUT: at most two upserts, each after the id it uses |
| RegisterFlow.RetryOnlyOnGone | notification-hubs-sdk/src/main/java/com/microsoft/windowsazure/messaging/NotificationHub.java:333-341 | a second id is requested if and only if the first PUT was answered 410 |
| RegisterFlow.RetryResult | notification-hubs-sdk/src/main/java/com/microsoft/windowsazure/messaging/NotificationHub.java:326-341 | a first POST (no usable id cached) that gives no id ends the flow with its error; after one PUT the result is that PUT's outcome, never RegistrationGone; a retry POST that gives no id ends it with that POST's error; after the retry's PUT the result is that PUT's outcome, whatever it is |
| RegisterFlow.UpsertOrRenewTrace | notification-hubs-sdk/src/main/java/com/microsoft/windowsazure/messaging/NotificationHub.java:331-341 | after the id is set, the requests follow PUT, then POST and PUT only when the retry happens, and at least one is sent |
| RegisterFlow.UpsertOrRenewGone | notification-hubs-sdk/src/main/java/com/microsoft/windowsazure/messaging/NotificationHub.java:333-341 | after the first PUT, a new id is requested if and only if that PUT was answered 410 |
| RegisterFlow.UpsertOrRenewResult | notification-hubs-sdk/src/main/java/com/microsoft/windowsazure/messaging/NotificationHub.java:333-341 | the result is the first PUT's outcome unless that is RegistrationGone; otherwise the error of the retry's POST when it gives no id, or the outcome of the PUT sent with the new id |
| RegisterFlow.RetryStore | notification-hubs-sdk/src/main/java/com/microsoft/windowsazure/messaging/NotificationHub.java:326-341 | the store is unchanged on failure and holds the returned name's id and the sent handle on success |
| RegisterFlow.UpsertOrRenewStore | notification-hubs-sdk/src/main/java/com/microsoft/windowsazure/messaging/NotificationHub.java:331-341 | from the first PUT on, the store changes only on success, by caching the returned name's id and the sent handle |
| RegisterFlow.RefreshStepShape | notification-hubs-sdk/src/main/java/com/microsoft/windowsazure/messaging/NotificationHub.java:211-234 | a blank handle fails with no change and nothing sent; otherwise one GET, and the name keys are dropped even when the request cannot be built |
| RegisterFlow.RegisterRefreshesFirst | notification-hubs-sdk/src/main/java/com/microsoft/windowsazure/messaging/NotificationHub.java:316-341 | with a refresh due, the GET comes first, then the retry flow against the refreshed store; after a failed refresh nothing more is sent and the refresh stays due |
| RegisterFlow.RegisterSuccessClearsRefresh | notification-hubs-sdk/src/main/java/com/microsoft/windowsazure/messaging/NotificationHub.java:314-342 | a successful registration leaves no refresh due, and none becomes due when none was |

## Left out

- HTTP execution (OkHttp calls, timeouts, reading the response body) is the `Transport.respond` oracle; the body is whatever the oracle returns.
- HMAC-SHA256, Base64 and URLEncoder are uninterpreted `Platform` functions. Only the token's structure and which string is signed are proved.
- `Calendar` time is the transport's clock, in milliseconds per call. Java `long` overflow of the expiry is not modelled.
- XML text: parsing and printing are `Hooks` functions over element trees. `normalize()` and namespaces are not modelled.
- The `SimpleDateFormat` parse after the rewrite in `UTCDateStringToDate` and its time zone are not modelled. A null date string (a NullPointerException in the source) is outside `UtcDateRewrite`'s domain.
- SharedPreferences `apply()` is asynchronous in the source; here every edit takes effect at once. `Context`, `PreferenceManager` and the constructor's null-context check are not modelled.
- The User-Agent string built from `Build.VERSION` is an opaque `Platform.userAgent`.
- `java.net.URI` parsing of the endpoint is modelled for the scheme name, the empty scheme-specific part and opacity; the rest of its grammar is the `Platform.uriAccepts` oracle.
- Connection.AddApiVersionToUrl: the `URI.create` of the full URL at Connection.java:258 is not checked. A hub path or resource that the URI grammar refuses (a space, say) raises IllegalArgumentException there in the source; the model builds the URL.
- Connection.BuildRequest: for the same reason, the request is built whenever the endpoint and the credentials allow it; the IllegalArgumentException from line 258 on a refused full URL is not among its failures.
- `getRegistrationInformation` is a JSON library call with no logic of its own.
- `ConnectionStringParser`, `Utils`, `GcmNativeRegistration` and `GcmTemplateRegistration` are not part of this model; they appear as parameters: a parse function, the `IsBlank` reading, and the `Hooks` fields.
- The source has no locking; the model is single-threaded.
- `Hub.NotificationHub.UnregisterAll`: the order in which the key snapshot is visited is unspecified in the source and is a ghost output here. A failed DELETE stops the loop after removing only that entry's key, as the source does, so the cache is not claimed empty after a failure. Some descriptions of this client say every cache entry is removed even when a delete fails; the code does not do that, and the model follows the code.
- `Hub.NotificationHub.RefreshRegistrationInformation`: when a feed entry fails to load, the entries before it stay stored and the name keys purged before the GET stay purged, as in the source. Nothing is rolled back.
- Variant dispatch stays the source's content sniffing (`IsTemplateRegistration`) over an opaque template node name. The custom payload's content is opaque, so the round trip states the variant fields as what the variant's load hook reads from the payload.
