# Relay server state machine

A Dafny model of the relay server of life180: the service that keeps a
directory of users and their client devices, a pool of single-use MLS key
packages per client, and a store-and-forward mailbox per client.

The model follows the behaviour the server's integration tests,
`client_test.rs` and `message_test.rs`, assert: their assertions pin down the
status codes and payloads they check, and the remaining choices (the order
of the checks below, what a failed send delivers, fetch order, and the
others) are listed under "Left out".

The model is one class, `Relay.Server`, whose map fields stand for the
database tables (users, clients, key packages, messages) and whose methods
are the HTTP operations:

- client operations: `CreateClient`, `GetClient`, `ListClients`,
  `UpdateClient`, `DeleteClient` (the last cascades through `Remove`);
- key-package operations: `ReplaceKeyPackages` (replaces the whole pool),
  `FetchKeyPackage` (hands out one package and deletes it);
- mailbox operations: `Send` (fans one payload out to a list of clients) and
  `Receive` (reads a client's mailbox in send order).

Every operation returns a `Status` (`OK`, `Created`, `BadRequest`,
`Forbidden`, `NotFound`). Client-scoped operations check, in this order:
malformed UUID → `BadRequest`; unknown client → `NotFound`; caller not the
owner → `Forbidden` (for update, delete, key-package replace and receive);
then the operation's own check (a signature that does not verify, or a
package with the wrong identity → `BadRequest`).

Every state the server reaches satisfies `Relay.Consistent`: each record is
filed under its own UUID, each client belongs to a registered user and its
signature verifies under that user's identity key, each client has exactly
one pool and one mailbox, each stored key package carries the identity
`client_<user>_<client>` of its client, and the creation order lists every
client once. Each state-changing method keeps it, through one value-level
lemma per kind of update (`RegisterKeeps`, `CreateKeeps`, …).

The module `Scenarios` replays each test function against a fresh server and
proves, for all keys, UUIDs and payloads the tests could draw, the statuses
and payloads that test asserts, including the intermediate listings and
reads.

Files:

- `common.dfy` — statuses, bytes, `Option`, sequence helpers.
- `uuids.dfy` — the RFC 4122 textual UUID form, its parser, and the
  round trip between printing and parsing.
- `keypackages.dfy` — key packages, the identity they must carry, the check
  of an uploaded batch, and the package count.
- `mailbox.dfy` — mailboxes, the specification of a fan-out send, recipient
  resolution and delivery.
- `relay.dfy` — the server's invariant and the `Server` class.
- `scenarios.dfy` — the test functions as verified scenarios.

## Model

| member | source | states |
|---|---|---|
| Uuids.WellFormedDigits | packages/rust/server/tests/message_test.rs:170 | a text accepted as a UUID carries exactly 32 hexadecimal digits (the 128 bits of RFC 4122 section 3) around its four hyphens |
| Uuids.ParseUuid | packages/rust/server/tests/message_test.rs:185-196 | a text parses exactly when it has the hyphenated 8-4-4-4-12 hexadecimal form; a parsed UUID is in canonical lower-case spelling |
| Uuids.ParseCanonical | packages/rust/server/tests/message_test.rs:30-31 | a UUID the server hands out, printed and parsed back, is the same UUID |
| Uuids.ParseIgnoresCase | packages/rust/server/tests/message_test.rs:170-174 | two spellings that differ only in the case of their hex digits parse to the same UUID |
| Uuids.ParseAll | packages/rust/server/tests/message_test.rs:226-238 | a recipient list parses exactly when every entry is well formed, entry by entry and in order |
| Uuids.ParseAllCanonical | packages/rust/server/tests/message_test.rs:212-213 | a list of UUIDs printed by the server parses back to itself |
| KeyPackages.IdentityDeterminesClient | packages/rust/server/tests/client_test.rs:573-605 | for one user, equal expected identities imply equal client UUIDs, so a package built for another client is never accepted |
| KeyPackages.IdentityInjective | packages/rust/server/tests/client_test.rs:225 | `ExpectedIdentity(user, client)`, that is `client_<user>_<client>`, determines both UUIDs when they are well formed |
| KeyPackages.CheckIdentities | packages/rust/server/tests/client_test.rs:573-605 | an uploaded batch is accepted if and only if every package carries the expected identity; when it is rejected, some package does not carry it |
| KeyPackages.PoolTotalBounds | packages/rust/server/tests/client_test.rs:271-277 | the row count `PoolTotal` of the package table counts every listed pool: none is larger than the total, and the total is zero exactly when every pool is empty |
| KeyPackages.PoolTotalOther | packages/rust/server/tests/client_test.rs:271-277 | changing the pool of an unlisted client leaves the row count alone |
| KeyPackages.PoolTotalUpdate | packages/rust/server/tests/client_test.rs:248-277 | replacing one client's pool moves the row count by exactly the change in that pool's size |
| Mailbox.FanOut | packages/rust/server/tests/message_test.rs:44-56 | a send creates and removes no mailbox |
| Mailbox.FanOutContents | packages/rust/server/tests/message_test.rs:90-148 | after a send each mailbox holds its old entries unchanged and in order, followed by one copy of the payload per time the recipient list names it |
| Mailbox.FanOutSkips | packages/rust/server/tests/message_test.rs:44-56 | a client the recipient list does not name receives nothing |
| Mailbox.CountAbsent | packages/rust/server/tests/message_test.rs:44-56 | a client absent from the recipient list is counted zero times |
| Mailbox.SendOne | packages/rust/server/tests/message_test.rs:43-69 | a send to a single client appends exactly that payload to its mailbox |
| Mailbox.SendsInOrder | packages/rust/server/tests/message_test.rs:90-148 | three successive sends to one client read back as exactly those three payloads, in send order |
| Mailbox.ResolveRecipients | packages/rust/server/tests/message_test.rs:198-252 | an empty or malformed recipient list is a bad request, a well-formed list naming an unknown client is not found, otherwise the parsed list of known clients comes back |
| Mailbox.Deliver | packages/rust/server/tests/message_test.rs:44-56 | the delivery loop leaves the mailboxes exactly as the fan-out specification says |
| Relay.RegisterKeeps | packages/rust/server/tests/client_test.rs:27-36 | registering a user with a fresh UUID keeps the server invariant |
| Relay.CreateKeeps | packages/rust/server/tests/client_test.rs:53-75 | adding a client signed by its owner with an empty pool and mailbox keeps the invariant |
| Relay.UpdateKeeps | packages/rust/server/tests/client_test.rs:118-136 | replacing a client's key and signature by a pair the same owner signed keeps the invariant |
| Relay.DeleteKeeps | packages/rust/server/tests/client_test.rs:155-163 | removing a client together with its pool, mailbox and place in the creation order keeps the invariant |
| Relay.RestockKeeps | packages/rust/server/tests/client_test.rs:248-257 | storing a pool whose packages all carry the client's identity keeps the invariant |
| Relay.DeliverKeeps | packages/rust/server/tests/message_test.rs:48-56 | rewriting the mailboxes without adding or removing one keeps the invariant |
| Relay.OwnedBy | packages/rust/server/tests/client_test.rs:81-99 | the listing holds exactly the stored clients of the given user, each once |
| Relay.TotalCountsEveryPool | packages/rust/server/tests/client_test.rs:271-277 | for a valid server, `TotalPackages` (the `SELECT COUNT(*)` over the package table) bounds every client's pool and is zero exactly when every pool is empty |
| Relay.Server.constructor | packages/rust/server/tests/client_test.rs:24-25 | a new server is empty and satisfies the invariant |
| Relay.Server.RegisterUser | packages/rust/server/tests/client_test.rs:27-38 | a registered user is stored under its UUID with its identity key; nothing else changes |
| Relay.Server.CreateClient | packages/rust/server/tests/client_test.rs:53-79 | Created if and only if the signature verifies under the caller's identity key, with a new client of the caller, an empty pool and an empty mailbox; otherwise BadRequest and no change |
| Relay.Server.GetClient | packages/rust/server/tests/client_test.rs:101-116 | a stored client comes back as stored; an unknown UUID is not found and a malformed one a bad request |
| Relay.Server.ListClients | packages/rust/server/tests/client_test.rs:40-51 | for a registered user, OK with exactly that user's stored clients, each once; malformed UUID is a bad request, unknown user not found |
| Relay.Server.UpdateClient | packages/rust/server/tests/client_test.rs:118-153 | only the owner, with a signature that verifies under the owner's identity key, replaces key and signature, keeping UUID and owner; a non-owner is forbidden, a bad signature a bad request, and neither changes anything |
| Relay.Server.DeleteClient | packages/rust/server/tests/client_test.rs:155-187 | the owner's delete removes the client, its pool and its mailbox; a non-owner is forbidden and nothing changes |
| Relay.Server.Remove | packages/rust/server/tests/client_test.rs:155-177 | the cascade drops the client from every table and from the creation order and keeps the invariant |
| Relay.Server.ReplaceKeyPackages | packages/rust/server/tests/client_test.rs:248-257 | the owner's upload replaces the pool if and only if every package carries `client_<owner>_<client>`; the row count moves by the difference; a non-owner is forbidden |
| Relay.Server.FetchKeyPackage | packages/rust/server/tests/client_test.rs:213-277 | an empty pool is not found; otherwise the oldest package is handed out and removed, and the row count drops by one |
| Relay.Server.Send | packages/rust/server/tests/message_test.rs:43-56 | a send with an empty or malformed list is a bad request and one naming an unknown client is not found, both delivering nothing; otherwise the mailboxes become the fan-out of the payload over the list |
| Relay.Server.Receive | packages/rust/server/tests/message_test.rs:30-42 | the owner reads the client's whole mailbox; an unknown client is not found, a malformed UUID a bad request, another user forbidden |
| Scenarios.SetUp | packages/rust/server/tests/client_test.rs:202-211 | one registered user with one signed client, as the tests' helpers leave the server |
| Scenarios.ClientCrud | packages/rust/server/tests/client_test.rs:22-188 | statuses OK, Created, OK, OK, OK, OK, OK, OK, NotFound; the list before creation is empty; the list after creation is exactly the new client, and reading it returns the same user, UUID, key and signature; after rotation the client carries the new key and signature; the list after deletion is empty |
| Scenarios.KeyPackageFetch | packages/rust/server/tests/client_test.rs:190-278 | fetch from an empty pool is not found, the upload of five packages is OK, one fetch is OK and returns the first package, four packages remain |
| Scenarios.Stamp | packages/rust/server/tests/client_test.rs:228-246 | one package per payload, in payload order, each carrying the given identity, so the whole batch carries it |
| Scenarios.DrainPool | packages/rust/server/tests/client_test.rs:257-277 | N fetches after an upload of N packages return them in upload order, each once, and the next fetch is not found |
| Scenarios.Drain | packages/rust/server/tests/client_test.rs:259-277 | fetching until the pool is empty yields the pool's packages in order, leaves that pool empty, and changes no other pool, user, client, creation order or mailbox |
| Scenarios.FetchNext | packages/rust/server/tests/client_test.rs:259-269 | one fetch from a non-empty pool returns its head and changes only that pool, to its tail |
| Scenarios.CreateClientBadSignature | packages/rust/server/tests/client_test.rs:282-322 | an all-zero signature is a bad request and the user still has no client |
| Scenarios.UpdateClientBadAuth | packages/rust/server/tests/client_test.rs:324-383 | another user, even one sharing the identity key, is forbidden and the client is unchanged |
| Scenarios.UpdateClientBadSignature | packages/rust/server/tests/client_test.rs:385-429 | the owner's rotation with an all-zero signature is a bad request and the client is unchanged |
| Scenarios.DeleteClientBadAuth | packages/rust/server/tests/client_test.rs:431-476 | another user's delete is forbidden and the client survives |
| Scenarios.ReplaceKeyPackagesBadAuth | packages/rust/server/tests/client_test.rs:478-549 | another user's upload is forbidden and no package is stored |
| Scenarios.ReplaceKeyPackagesWrongIdentity | packages/rust/server/tests/client_test.rs:551-606 | a package naming another client of the same user is a bad request and no package is stored |
| Scenarios.SingleMessage | packages/rust/server/tests/message_test.rs:11-70 | a new mailbox reads empty; after one send it reads exactly that payload; all statuses OK |
| Scenarios.MultipleMessages | packages/rust/server/tests/message_test.rs:72-149 | three sends then a receive are all OK and read back the three payloads in send order |
| Scenarios.InvalidUuid | packages/rust/server/tests/message_test.rs:151-253 | statuses NotFound, BadRequest, NotFound, NotFound, BadRequest, BadRequest, and the real client's mailbox stays empty |
| Scenarios.BadUser | packages/rust/server/tests/message_test.rs:255-315 | another user reading the client's mailbox is forbidden and gets nothing |
| Scenarios.OnlyClient | packages/rust/server/tests/client_test.rs:92-99 | a listing holding one client, once, is that client alone |

## Left out

- Signature verification is Ed25519 (RFC 8032) in the server; here it is an arbitrary predicate `verify` fixed when the server is built, so every result holds for any verifier. The tests' fixed key pair becomes a key with signatures `verify` accepts; an all-zero signature is one it rejects.
- Key packages are MLS KeyPackages (RFC 9420 section 10) with a Basic credential (RFC 9420 section 5.3), sent TLS-serialised and base64-encoded. The model keeps only the credential's identity and an opaque payload; a package that fails to deserialise or to validate is not modelled.
- UUID parsing accepts only the hyphenated 8-4-4-4-12 form; the other spellings a UUID library may accept (braced, URN, simple) are not modelled.
- Bearer-token authentication is not modelled: `caller` is the user the token resolved to, and Unauthorized never arises. User registration and confirmation (database I/O, random link ids) are replaced by `RegisterUser`.
- The UUID of a new client is drawn at random by the server; here it is the parameter `newId`, required to be unused.
- Message timestamps (`received_date`) are wall-clock values and are left out; the order of a mailbox is its sequence order.
- Concurrency, transactions and the database itself are not modelled: each operation is one atomic step.
- Route wiring (`router.rs`), the frontend HTTP client, the mobile UI and the JSON wire types in `http_types.rs` are not part of this model. The tests pass raw bytes and read `.0` where `http_types.rs:40` and `http_types.rs:56` declare `Message` and `DeliveredMessage`; wire shapes and base64 are not modelled, so this drift is not either.
- `Receive` is modelled as a read that does not remove messages, since the tests never read a mailbox twice after a send and the mailbox is described as a durable log.
- The order of the checks in client-scoped operations (malformed UUID, then unknown client, then ownership, then the operation's own check) is a choice: every failing request in the tests fails exactly one of them.
- `Send` delivers one copy per entry of the recipient list, so a client named twice receives the payload twice; the tests never name a client twice.
- `Send` resolves the whole recipient list before delivering anything, so a request that fails delivers to nobody; the tests check only the status code.
- `ListClients` for a well-formed UUID naming no user is NotFound; the tests never ask for it.
- `FetchKeyPackage` hands out the oldest package and does not check ownership; the tests only fetch from the caller's own client and only check the status and the row count.
- Relay.Server.ListClients: the contract states which clients are listed and that each appears once, not that they appear in creation order, which the loop also produces.
- Relay.OwnedBy: the same as `ListClients`; the creation order of the listing is not stated.
