# Ollama OpenAI-compatible gateway — verified model

The gateway (`server.py`) exposes an OpenAI-style `POST /v1/chat/completions`
endpoint in front of a local Ollama engine. Every protected endpoint first
checks a bearer token. The gateway then keeps a process-wide cache of model
names, `MODEL_CACHE`, and resolves each requested model against it:

1. the requested name is used if it is cached;
2. otherwise the cache is refreshed from the engine and checked again;
3. otherwise the first cached name is substituted;
4. otherwise the answer is a 404 and the engine's chat call is never made.

`GET /v1/models/update` always refreshes the cache and returns it.

The model is one Dafny module, `Gateway` (`gateway.dfy`):

- `ModelNames` is the list comprehension that turns the engine's listing into cache entries.
- `VerifyBearerToken` is the token check; `Truthy` is Python's truth test on the possibly missing substitute name.
- `Resolve` is the resolution policy as a pure function. It takes the cache before the request, the requested name and the listing the engine would report. It returns the resolution, the cache afterwards and whether a refresh happened.
- `Server` is a class holding the configured `token` and the mutable `cache`. Its invariant `Valid()` says the token is non-empty; every method requires and keeps it. Its methods are `UpdateModelCache`, `ResolveModel`, `ChatCompletions` and `RefreshModels`. Each method's contract ties the new cache and the response to `ModelNames` and `Resolve`.
- `ChatCompletions` returns `sent`, the request the engine's chat call receives. `sent` is `None` exactly when that call is never made.
- The engine's calls are inputs: `listing` is what `ollama.list()` would report and `reply` is what `ollama.chat()` would answer.
- `Walkthrough` is a client method. It plays five request scenarios against the method contracts alone: a cached model, a wrong token, a substitute model, an empty listing and a manual refresh.

The 404 detail at server.py:57, "No Ollama models available on the
system.", describes an empty inventory. But server.py:56 tests Python
truthiness, so a listing whose first name is `""` also yields the 404, even
when later names exist. The model follows the code (`Truthy`, and the last
ensures of `Resolve`).

## Model

| member | source | states |
|---|---|---|
| `Gateway.ModelNames` | server.py:27 | the cache built from a listing has the listing's length and, at every index, that record's `model` name, in the engine's order |
| `Gateway.ModelNamesMembership` | server.py:27 | a name is in the refreshed cache if and only if some record of the engine's listing carries it |
| `Gateway.FirstModel` | server.py:44-46 | `get_existing_model` gives None exactly for an empty cache, and otherwise the cache's first entry, which is a cached name |
| `Gateway.Truthy` | server.py:56 | None and `""` are false, every other name is true |
| `Gateway.VerifyBearerToken` | server.py:38-41 | a credential passes if and only if it equals the configured token; any other credential is refused with 403 "Invalid Bearer Token"; with a configured token an empty credential never passes |
| `Gateway.WrapReply` | server.py:63 | a successful chat answers with exactly one choice, whose message is the engine's message |
| `Gateway.Resolve` | server.py:52-57 | a cached name is used unchanged with no refresh and the cache kept; a miss refreshes once and replaces the cache with the engine's names; a name the engine lists is then used; otherwise the engine's first name is used unless it is falsy; any resolved name is in the current cache and is either the requested name or the cache's head; the result is a 404 if and only if the name is in neither list and the listing is empty or starts with `""` |
| `Gateway.StaleCacheForgotten` | server.py:52-55 | on a cache miss the outcome does not depend on what the old cache held |
| `Gateway.ResolvedNameIsThenAHit` | server.py:52-62 | after a successful resolution, a request for the resolved name is served from the cache without a refresh, whatever the engine reports then |
| `Gateway.Server.constructor` | server.py:14-30 | start-up needs a non-empty token; the server keeps that token and fills the cache once from the engine's listing |
| `Gateway.Server.UpdateModelCache` | server.py:24-27 | the cache becomes exactly the engine's names, in order, and nothing of the old cache survives |
| `Gateway.Server.ResolveModel` | server.py:52-57 | the resolution, the new cache and the refresh flag are those of `Resolve` on the old cache |
| `Gateway.Server.ChatCompletions` | server.py:38-63 | a credential other than the token gets a 403, no chat call and an unchanged cache; otherwise the cache becomes the resolution's cache; a 404 outcome makes no chat call; a resolved name is sent to the engine with the request's messages, and the engine's message is wrapped as the answer; whatever is sent names a cached model; an empty credential is always refused |
| `Gateway.Server.RefreshModels` | server.py:71-74 | a wrong credential gets a 403 and leaves the cache alone; otherwise the cache is always refreshed, even when populated, and the answer carries exactly the refreshed cache; an empty credential is always refused |

## Left out

- HTTP plumbing (FastAPI routing, `HTTPBearer` header extraction, pydantic parsing, uvicorn start-up) is not modelled. A 403 or 404 is a `Response` value. A missing header, or one whose credential is empty, is rejected by `HTTPBearer` itself with its own 403 detail before `verify_bearer_token` runs; that rejection is not modelled. The `credential == ""` clauses of `Gateway.VerifyBearerToken`, `Gateway.Server.ChatCompletions` and `Gateway.Server.RefreshModels` describe `verify_bearer_token` as if it were called directly with an empty credential.
- Environment loading is reduced to a precondition. Start-up reads the token with dotenv and raises `RuntimeError` when it is missing (server.py:14-16). The model instead requires a non-empty token in the constructor.
- The engine's `ollama.list()` and `ollama.chat()` are foreign network calls. Their results are input parameters. A failure of either call, which propagates as an internal error, is not modelled.
- The console output at server.py:59 and server.py:78-79 has no effect on behaviour and is not modelled.
- `Gateway.Server.ChatCompletions` returns the request sent to the engine instead of overwriting `request.model` in place (server.py:55). After a 404 the overwritten request is discarded, so nothing observable is lost.
- Concurrent requests racing on the shared cache are not modelled. Calls are modelled one after another.
- The health-check endpoint (server.py:66-68) returns a constant message and is not modelled.
