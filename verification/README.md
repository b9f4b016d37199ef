# RobustMQ admin and topic-metadata bridge, modelled in Dafny

This project models three small pieces of RobustMQ's admin and metadata path:

- **The response envelope** `AdminServerResponse<T>` (`http_response.dfy`). It is a
  `{code, data}` record. `ok` and `success` give code 0, and `err` gives code 100.
  `is_ok` tests for code 0. Converting an envelope to an HTTP reply always uses
  status 200.
- **The user admin handlers** (`user_admin.dfy`).
  - `user_list` reads every user from the authentication driver. It projects each
    user onto a `UserListRow` that has no password field. It then runs the rows
    through filter, then sort, then paginate, and wraps the page in an envelope.
  - `get_field_str` is the field lookup of the list view.
  - `user_create` and `user_delete` map the driver's outcome onto `success()` or
    `err(text)`.
- **The broker's `TopicStorage`** (`topic_storage.dfy`).
  - `save_topic` and `delete_topic` send one placement request each and wrap any
    RPC error.
  - `topic_list` asks for every topic. It decodes each raw entry, skips entries
    that fail to decode, and indexes the rest by topic name. The last entry with a
    given name wins.
  - `get_topic` returns nothing for an empty reply. Otherwise it decodes only the
    first entry and reports a decode failure as an error.

Pure code is written as datatypes and functions. The two loops of the source are
written as methods with loop invariants, each proved against a recursive
specification function:

- the projection loop of `user_list` against `Rows`;
- the map-building loop of `topic_list` against `TopicIndex`.

The properties of those functions are proved as lemmas.

Some collaborators are not part of this model. Each one is an input:

- The authentication driver is an `AuthDriver` value. It holds the outcome of
  `read_all_user` and, as functions, `save_user` and `delete_user`.
- The three placement calls are the functions of a `Placement` value.
- `MQTTTopic::encode` and `serde_json::from_str` are the functions of a
  `TopicCodec` value.
- `apply_filters`, `apply_sorting` and `apply_pagination` are the functions of a
  `QueryPipeline` value. Their semantics are not modelled.
- The broker configuration (cluster name and placement address) is a
  `BrokerConf` value.

Because these are functions, the contracts can say which user, which name and
which request each operation hands over.

Two behaviours of the code are kept as written:

- `delete_topic` wraps RPC errors with the save wording
  `"save user config error, error messsage:"`. The misspelling is kept.
- `get_field_str` knows only `username`; `is_superuser` gives `None`.

## Model

| member | source | states |
|---|---|---|
| HttpResponse.New | crates/common/base/src/http_response.rs:28-30 | `new(c, d)` stores exactly code `c` and data `d`, as read back by `code()` and `data()` |
| HttpResponse.NewRoundTrip | crates/common/base/src/http_response.rs:40-46 | `code()` and `data()` return what `new` stored, and rebuilding from them gives the same envelope |
| HttpResponse.Ok | crates/common/base/src/http_response.rs:32-34 | `ok(d)` is a success (`is_ok`) with code 0 and data `d` |
| HttpResponse.Err | crates/common/base/src/http_response.rs:36-38 | `err(d)` is not `is_ok`, has code 100 and data `d` |
| HttpResponse.Success | crates/common/base/src/http_response.rs:53-57 | `success()` is `is_ok` with code 0 and data `"success"` |
| HttpResponse.AdminServerResponse.Code | crates/common/base/src/http_response.rs:40-42 | `code()` returns the stored code: together with the stored data it rebuilds the envelope |
| HttpResponse.AdminServerResponse.Data | crates/common/base/src/http_response.rs:44-46 | `data()` returns the stored payload: together with the stored code it rebuilds the envelope |
| HttpResponse.AdminServerResponse.IsOk | crates/common/base/src/http_response.rs:48-50 | `is_ok()` holds exactly when the code is 0 |
| HttpResponse.ConstructorCodes | crates/common/base/src/http_response.rs:32-38 | `ok`, `err` and `success` only produce codes 0 and 100; `ok` and `success` are `is_ok`, `err` is not, and `ok(d)` differs from `err(d)` |
| HttpResponse.IntoResponse | crates/common/base/src/http_response.rs:59-64 | the HTTP reply always has status 200 and carries the envelope unchanged as its body |
| UserAdmin.UserListRow.GetFieldStr | crates/admin-server/src/mqtt/user.rs:73-80 | a field lookup gives a value exactly when the field is `username`, and that value is the row's username; every other field, `is_superuser` included, gives `None` |
| UserAdmin.UserList | crates/admin-server/src/mqtt/user.rs:27-71 | a failed `read_all_user` gives an error envelope (code 100, the error text) that does not depend on the query pipeline. Otherwise the reply is a success whose `data` and `total_count` are the two components of paginate(sort(filter(rows))) over the projected rows |
| UserAdmin.RowsProjects | crates/admin-server/src/mqtt/user.rs:53-61 | the projection gives one row per user, in iteration order, with username and superuser flag copied |
| UserAdmin.RowsIgnorePasswords | crates/admin-server/src/mqtt/user.rs:56-59 | the rows do not depend on any password: users that agree on names and flags give identical rows |
| UserAdmin.FromDriver | crates/admin-server/src/mqtt/user.rs:96-99 | a driver `Ok` gives a success envelope with `"success"`; `Err(e)` gives code 100 with `e`'s text; `is_ok` holds exactly on `Ok`; the code is always 0 or 100 |
| UserAdmin.UserCreate | crates/admin-server/src/mqtt/user.rs:82-100 | the user handed to `save_user` has the request's username, password and superuser flag; `Ok` maps to `success()`, `Err(e)` to `err(e)`; the code is 0 or 100 |
| UserAdmin.UserDelete | crates/admin-server/src/mqtt/user.rs:102-115 | `delete_user` receives exactly the request's username; `Ok` maps to `success()`, `Err(e)` to `err(e)`; the code is 0 or 100 |
| TopicStorage.NewTopic | src/mqtt-broker/src/storage/topic.rs:24 | the fresh topic record that `save_topic` encodes carries the given name |
| TopicStorage.WrapRpcError | src/mqtt-broker/src/storage/topic.rs:40-45 | an RPC error becomes a `CommmonError` whose message is the save prefix followed by the original error text |
| TopicStorage.WrapRpcErrorInjective | src/mqtt-broker/src/storage/topic.rs:41-44 | the original error text can be recovered from the wrapped message |
| TopicStorage.SaveTopic | src/mqtt-broker/src/storage/topic.rs:22-47 | the create request carries the cluster name, the topic name and the encoding of a fresh record for that name. The result is `Ok(())` exactly when the RPC succeeds, and otherwise the wrapped RPC error |
| TopicStorage.DeleteTopic | src/mqtt-broker/src/storage/topic.rs:49-72 | the delete request carries the cluster name and the topic name. The result is `Ok(())` exactly when the RPC succeeds, and otherwise the RPC error wrapped with the save wording |
| TopicStorage.DeleteReusesSaveWording | src/mqtt-broker/src/storage/topic.rs:65-70 | a failed delete and a failed save with the same RPC error report identical errors |
| TopicStorage.TopicList | src/mqtt-broker/src/storage/topic.rs:74-105 | the list request uses the wildcard name `""`. An RPC error is returned unchanged. Otherwise the call succeeds with the index of the decodable entries, each key mapping to a topic of that name |
| TopicStorage.IndexKeysAreNames | src/mqtt-broker/src/storage/topic.rs:91-92 | every key of the built map maps to a topic whose `topic_name` is that key |
| TopicStorage.IndexKeyIff | src/mqtt-broker/src/storage/topic.rs:88-98 | a name is a key exactly when some raw entry decodes to a topic of that name |
| TopicStorage.IndexSize | src/mqtt-broker/src/storage/topic.rs:88-98 | the map has at most as many keys as there are raw entries |
| TopicStorage.MalformedShrinks | src/mqtt-broker/src/storage/topic.rs:90-96 | with one malformed entry among `n` raw entries, the map has at most `n - 1` keys |
| TopicStorage.IndexLastWins | src/mqtt-broker/src/storage/topic.rs:89-92 | of several entries decoding to the same name, the map holds the last one |
| TopicStorage.IndexSkipsUndecodable | src/mqtt-broker/src/storage/topic.rs:90-96 | an entry that fails to decode leaves the map exactly as if it were absent |
| TopicStorage.TopicFromReply | src/mqtt-broker/src/storage/topic.rs:120-135 | an RPC error is returned unchanged. An empty reply gives `Ok(None)`. Otherwise the first entry is decoded: success gives `Some`, failure gives a `CommmonError` with the decode error text |
| TopicStorage.GetTopic | src/mqtt-broker/src/storage/topic.rs:107-136 | the list request is scoped to the requested name. An RPC error is returned unchanged. An empty reply gives `Ok(None)`. Otherwise only the first entry is decoded: success gives `Some` of it, failure gives a `CommmonError` with the decode error text |
| TopicStorage.GetReadsOnlyFirst | src/mqtt-broker/src/storage/topic.rs:121-126 | only the first entry of a non-empty reply affects `get_topic` |
| TopicStorage.GetAndListAgree | src/mqtt-broker/src/storage/topic.rs:88-98 | on the same reply, a topic `get_topic` finds is a key of the `topic_list` map. When the first entry does not decode, `get_topic` fails while `topic_list` builds the map of the remaining entries |

## Left out

- Asynchronous execution, the axum extractors (`State`, `Json`) and the JSON
  serialisation of the envelope are not modelled. The handlers take their
  inputs as values.
- `build_query_params`, `apply_filters`, `apply_sorting` and `apply_pagination`
  are not part of this model. The query options are an opaque input and the
  three helpers are uninterpreted functions. Their filter, sort and page
  semantics are therefore not stated.
- The internals of `AuthDriver`, its cache manager and the client pool are not
  part of this model. `read_all_user` is an input result. `save_user` and
  `delete_user` are functions from their argument to their outcome.
- `read_all_user` returns a map. The model takes its values as a sequence in
  iteration order. The keys are not used, since the loop reads only the user.
- Errors are modelled by their `to_string()` text:
  - driver errors are plain strings;
  - `RobustMQError`'s display text is taken to be its message.
- `MQTTTopic` is not part of this model. The record is its name plus one opaque
  value for its other fields. `MQTTTopic::new` is taken to set that value to `""`.
- `MQTTTopic::encode` and `serde_json::from_str` are uninterpreted functions.
  No JSON is modelled, so the round trip "save, then get, gives the same topic"
  cannot be stated; it also depends on the placement service's storage.
- The placement RPC calls, `ClientPool` and the placement service are input
  functions. `broker_mqtt_conf()` is a `BrokerConf` parameter.
- `DashMap` is a plain `map<string, MqttTopic>`; its concurrent access is not
  modelled. `with_capacity(2)` has no observable effect and is not modelled.
- `TopicStorage::new` only stores the client pool, which the model does not
  have, so it has no counterpart.
- Logging (`src/common/src/log.rs`) is not part of this model, and neither is
  the topic-alias integration test.
