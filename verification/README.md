# LinkedIn profile scraper: verified decision core

This project models the decision logic of `linkedin_scraper.py`, a small service that scrapes one
LinkedIn profile page with a headless browser. The service is exposed two ways: a direct `/scrape`
endpoint and a JSON-RPC shaped `/mcp` tool-call endpoint. The browser is replaced by input data.
What remains is pure, sequential and deterministic:

- **Text** (`text.dfy`): Python's `str.strip()`. The whitespace set is written out as
  `str.isspace` defines it: ASCII `\t`..`\r`, `\x1c`..`\x1f` and space, plus the Unicode separators.
- **Extraction** (`extraction.dfy`): the rule shared by the repeating fields (experience,
  education, skills). The matched nodes are first sliced to the field's limit (5, 3, 10). Each
  node's text is then read and stripped. A node whose read raises is skipped. A stripped text is
  kept only if it passes the strict length test: `> 10`, `> 5`, or non-empty. A node read is
  `Option<string>`, where `None` means `inner_text()` raised.
- **Scraper** (`scraper.dfy`): the page is abstracted as one outcome per field block (absent, raises,
  or text; the `about` block as its three-step lookup chain). The browser session is abstracted
  as `Ready(page)` or `Fault(message)`. `Extract` builds the eight-key record the way the source
  does: start from `""`/`[]`/`url`, then run the seven blocks in order. `Scrape` adds the cookie
  guard in front.
- **Dispatch** (`dispatch.dfy`): `mcp_endpoint` as `HandleRpc` and `scrape_profile` as
  `ScrapeProfile`. Both map a scrape outcome to their response envelope.
- **Scenarios** (`scenarios.dfy`): concrete inputs. They cover eight experience nodes, the strict
  length test, a short first node, the Jane Doe end-to-end request, and the four tool-call
  rejections.

Consequences of the code as written:

- The code truncates **before** it filters: `exp_items[:5]` is taken first, and the length test is
  applied afterwards. So a short text among the first five experience nodes costs an entry, and the
  sixth node never replaces it (`TruncateBeforeFilter`, `ShortFirstNode`). `FilterThenTruncate` is
  the filter-first alternative (`ShortFirstNodeFilterFirst`). The code's result is always a prefix
  of it (`CollectPrefixOfFilterFirst`), and equal to it when no node in the window is dropped
  (`CollectMatchesWhenNoneDropped`).
- The length tests are strict. A 10-character experience text is dropped
  (`TenCharactersDropped`), and so is a 5-character education text.
- The record always has eight keys, `url` included.
- Removing a failing node is neutral for the per-node loop (`KeepSkipsFailure`). For the sliced
  field, it is neutral when the node lies outside the window. Inside the window, the node at index
  `limit`, if any, slides in and may add its entry at the end (`CollectDropFailure`,
  `FailureInsideWindow`).
- The `/mcp` error object is emitted as `{"message": ...}` only. Section 5.1 of the JSON-RPC 2.0
  specification requires an integer `code` member as well. The model's `Reply` has the message
  only, as emitted.

## Model

| member | source | states |
|---|---|---|
| Text.Strip | linkedin_scraper.py:189 | the result has no whitespace at either end, and the input is the result padded on both sides with whitespace only |
| Text.StripUnique | linkedin_scraper.py:189 | any stripped string that the input pads with whitespace is exactly what `strip()` returns (an independent definition of trimming) |
| Text.StripIdempotent | linkedin_scraper.py:189 | stripping a stripped text changes nothing |
| Text.StripEmptyIff | linkedin_scraper.py:215-216 | a text strips to `""` exactly when it is all whitespace, which is when the skills test `if text` rejects it |
| Text.StripPadding | linkedin_scraper.py:152 | whitespace around a stripped core is removed and the core is kept |
| Extraction.NodeEntry | linkedin_scraper.py:188-193 | a node contributes at most one entry; a failed read contributes nothing; an entry is the node's stripped text and passes the length test |
| Extraction.Keep | linkedin_scraper.py:187-193 | the loop keeps no more entries than nodes, and each entry is stripped and passes the field's length test |
| Extraction.Window | linkedin_scraper.py:187 | `nodes[:limit]`: at most `limit` nodes and a prefix of the match; exactly the first `limit` when there are that many, the whole list when there are fewer |
| Extraction.Collect | linkedin_scraper.py:186-191 | at most `limit` entries (5 / 3 / 10), each stripped and longer than the threshold (10 / 5 / 0) |
| Extraction.Gather | linkedin_scraper.py:185-195 | a raising `query_selector_all` leaves the field `[]`; a matched query gives exactly `Collect` of its nodes |
| Extraction.KeepAppend | linkedin_scraper.py:187-191 | document order is preserved: the entries of `a + b` are those of `a` followed by those of `b` |
| Extraction.KeepMember | linkedin_scraper.py:187-191 | a text is an entry iff some node read it successfully, its stripped form is that text, and it passes the length test |
| Extraction.KeepSkipsFailure | linkedin_scraper.py:188-193 | a failing node contributes nothing and every later node is still examined |
| Extraction.TruncateBeforeFilter | linkedin_scraper.py:187 | nodes after the first `limit` never reach the field, however many of the first `limit` were dropped |
| Extraction.CollectPrefixOfFilterFirst | linkedin_scraper.py:187-191 | the slice-then-filter result is always a prefix of the filter-then-slice result |
| Extraction.CollectMatchesWhenNoneDropped | linkedin_scraper.py:187-191 | the two orders agree whenever every node in the window yields an entry |
| Extraction.AllYield | linkedin_scraper.py:188-191 | when every node yields an entry, the loop keeps as many entries as nodes |
| Extraction.CollectDropFailure | linkedin_scraper.py:187-193 | removing a failing node outside the window changes nothing; inside the window it adds at most the next node's entry at the end |
| Extraction.CollectNodes | linkedin_scraper.py:186-193 | the imperative loop (append when `text and len(text) > n`) computes exactly `Collect` |
| Extraction.KeepAccepted | linkedin_scraper.py:189-191 | when every node reads an acceptable stripped text, the loop keeps each one unchanged, in order |
| Extraction.CollectMember | linkedin_scraper.py:186-191 | a text is an entry iff one of the first `limit` nodes read successfully and its stripped form is that text and passes the length test |
| Extraction.GatherNothing | linkedin_scraper.py:185-195 | a list block whose query raises, or whose windowed nodes all yield nothing, leaves its field `[]` |
| Scraper.AboutOutcome | linkedin_scraper.py:173-182 | the about text is read only when `#about`, its parent and the container are all found |
| Scraper.Initial | linkedin_scraper.py:137-146 | the starting record has every scalar `""`, every list `[]` and `url` equal to the requested URL |
| Scraper.Overwrite | linkedin_scraper.py:149-170 | a scalar block replaces the field with the stripped text only when the node was found and read; otherwise the field keeps its value |
| Scraper.Extract | linkedin_scraper.py:137-223 | `url` is echoed; each scalar is the stripped text when found and read, else `""`; a raising list query gives `[]`, a matched one exactly `Collect` of its nodes under the field's rule; every list stays within its bound and length rule |
| Scraper.Scrape | linkedin_scraper.py:94-134 | an empty cookie fails with "LINKEDIN_COOKIE not configured"; success iff the cookie is set and the browser session is ready, and then the record is `Extract` of the loaded page; a session fault's message is surfaced |
| Scraper.FieldsIndependent | linkedin_scraper.py:149-221 | each output field depends only on its own block's outcome, so a failure in one block leaves every other field alone |
| Scraper.OneFieldChanges | linkedin_scraper.py:149-195 | changing the name block's (or experience block's) outcome changes only that field, to the value that outcome determines |
| Scraper.CookieGuardFirst | linkedin_scraper.py:97-98 | with an empty cookie the outcome is the configuration error whatever the browser would have done |
| Scraper.AllBlocksFail | linkedin_scraper.py:137-221 | any page whose scalar blocks are absent or fail and whose list blocks raise or yield nothing gives the fully keyed empty record with `url` echoed |
| Scraper.ListFieldsFromWindow | linkedin_scraper.py:184-221 | in the record, an experience (education, skill) entry is exactly a text that one of the first 5 (3, 10) matched nodes yields |
| Dispatch.ReplyOf | linkedin_scraper.py:68-92 | a scrape success becomes `result` with the profile, a raised exception becomes `error.message` with its text |
| Dispatch.HandleRpc | linkedin_scraper.py:51-92 | `jsonrpc` is "2.0" and `id` is echoed; an unknown method, an unknown tool and a missing or empty `profile_url` each give their message; `result` appears iff the request passes every check and the scrape succeeds |
| Dispatch.ScrapeProfile | linkedin_scraper.py:42-49 | `{"success": true, "data": profile}` iff the scrape succeeds, with `data` the scrape's record; otherwise status 500 with `detail` the scrape's message |
| Dispatch.RejectedWithoutScrape | linkedin_scraper.py:55-86 | a request rejected before line 68 gets the same error response whatever the cookie and the browser would do, so the scrape is not invoked |
| Dispatch.ScrapeOutcomeCarried | linkedin_scraper.py:68-74 | a request that passes every check carries the scrape's own outcome for its `profile_url` |
| Dispatch.SurfacesAgree | linkedin_scraper.py:45-49 | the tool call's `result` is the direct endpoint's `data`, and its `error.message` is the direct endpoint's `detail` |
| Scenarios.EightExperienceNodes | linkedin_scraper.py:186-191 | eight long experience nodes give exactly the first five, in order |
| Scenarios.InternDropped | linkedin_scraper.py:190 | "Intern" is not an experience entry |
| Scenarios.TenCharactersDropped | linkedin_scraper.py:190 | a 10-character text fails the strict `> 10` test |
| Scenarios.PaddedTitleKept | linkedin_scraper.py:189-191 | a padded long title is kept in its stripped form |
| Scenarios.BlankSkillDropped | linkedin_scraper.py:215-216 | a whitespace-only skill is dropped |
| Scenarios.ShortSkillKept | linkedin_scraper.py:215-217 | a two-character skill is kept |
| Scenarios.ShortFirstNode | linkedin_scraper.py:187-191 | with a short first node among eight, only four experience entries survive |
| Scenarios.ShortFirstNodeFilterFirst | linkedin_scraper.py:187-191 | on the same nodes, filter-then-truncate would give five, so the two orders differ observably |
| Scenarios.FailureInsideWindow | linkedin_scraper.py:200-206 | a failing first education node costs an entry; without it three are kept |
| Scenarios.JaneDoeDirect | linkedin_scraper.py:42-49 | the page with only "Jane Doe" as heading gives the success envelope with the otherwise empty record |
| Scenarios.JaneDoeToolCall | linkedin_scraper.py:68-74 | the same request as a tool call gives `result` with that record and the echoed id |
| Scenarios.UnknownMethod | linkedin_scraper.py:81-86 | method "tools/list" gives "Unknown method: tools/list" |
| Scenarios.MissingToolName | linkedin_scraper.py:75-80 | a missing tool name gives "Unknown tool: None" |
| Scenarios.MissingProfileUrl | linkedin_scraper.py:60-66 | a missing `profile_url` gives "profile_url required" |
| Scenarios.NullArguments | linkedin_scraper.py:87-92 | `"arguments": null` gives the AttributeError text through the outer handler |

## Left out

- Browser work: the launch flags, the user agent and viewport, the `li_at` cookie installation,
  `goto` with its network-idle wait, `wait_for_selector('h1')`, and `browser.close` (lines 103-134
  and 225-226). These are calls into a browser engine. The model reduces them to a `Session`
  value, `Ready(page)` or `Fault(message)`.
- An exception raised by `browser.close()` in the `finally` clause would replace the outcome.
  This is not modelled, because it is a foreign call.
- CSS selectors and DOM traversal: each block is given its outcome directly as input data.
  A raising `query_selector` and a raising `inner_text()` have the same effect (the field keeps its
  value), so both are modelled as `ReadFails`.
- The anti-ban sleep on line 101: it is wall-clock, float-valued and affects timing only.
- FastAPI routing, CORS middleware, the health endpoints, Pydantic validation and coercion of the
  request body, and the uvicorn entry point (lines 11-40 and 228-230). These are transport glue.
- `async`/`await`: the extraction is sequential and is modelled as plain functions.
- Dispatch.HandleRpc: models `params["name"]` and `arguments["profile_url"]` only as absent or a
  string. A non-string tool name would appear in the message as Python's `str()` of it. A truthy
  non-string `profile_url` would reach the scrape. Neither is modelled.
- The environment variable is read once at import (line 23). Here it is an explicit `cookie`
  parameter.
