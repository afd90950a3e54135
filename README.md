# training_manager notifier, modelled in Dafny

`TrainingManager` (training_manager/interface.py) sends notices about machine-learning
training jobs to one direct-message channel of a chat service. Each notice is a list of
layout blocks: a header, a divider, then the body. For start and progress notices the
body is zero or more sections of `mrkdwn` fields separated by dividers; for error and
result notices it is exactly one section. The
manager keeps `_ts_holder`, a map from job id to the timestamp of the first message
posted for that job. Every later notice for the job is posted as a reply in that thread.

The model has four modules:

- `Wrappers` (wrappers.dfy): `Option`, which stands for Python's `None`-or-value.
- `Blocks` (blocks.dfy): the closed block type `Header | Section(fields) | Divider`.
  `Wire` builds the dictionary each builder returns and `FromWire` reads one back. The
  module also holds the block filter of `_compose_blocks` (`ComposeBlocks`, specified by
  `Present`) and the divider-separated layout of `_get_body_blocks` (`GetBodyBlocks`,
  specified by `BodyLayout`).
- `Fields` (fields.dfy): the three field text formats and the loops that render a
  dictionary. Start and progress notices keep only the first ten pairs; error and result
  notices have no cap.
- `Interface` (interface.dfy): the class `TrainingManager`. Its mutable field
  `tsHolder: map<string, string>` is `_ts_holder`. Its methods are `GetTs`,
  `SendRichBlock` and the four lifecycle sends.

The chat service's `chat_postMessage` call is the parameter
`transport: Message -> PostResult`. It is an oracle that maps the message handed to it
to `Posted(ts)` or `ApiError(code)`. Each send method also returns a ghost out-parameter
`posted`, the message handed to the transport. This lets the contracts state the thread
anchor and the block list that were sent. A Python dictionary is modelled as the sequence
of its items in iteration order, each item given as the string forms that the f-string
`str()` conversion makes of its key and of its value.

Of the sends modelled here, only `send_rich_block` returns the new timestamp on success
(as do the left-out `send_plain_message` and `send_file`, interface.py:115, 155). The four
lifecycle sends return `(True, "")` (interface.py:184, 213, 239, 263), and so does the model.

## Model

| member | source | states |
|---|---|---|
| `Blocks.WireRoundTrip` | training_manager/interface.py:43-93 | The dictionary of every header, section or divider block reads back as that same block. These are `{"type":"header","text":{"type":"plain_text","text":t,"emoji":true}}`, `{"type":"section","fields":[...]}` and `{"type":"divider"}` (lines 92-93). The unused footer builder at lines 79-90 is not part of it |
| `Blocks.FromWireExact` | training_manager/interface.py:43-93 | The only dictionaries that read back as a block are the ones the header, section and divider builders (lines 43-64, 92-93) produce, so the encoding is a bijection onto its image |
| `Blocks.FieldsRoundTrip` | training_manager/interface.py:55-56 | A list of fields encoded as `{"type":"mrkdwn","text":t}` objects reads back as the same list, in order |
| `Blocks.FieldsFromWireExact` | training_manager/interface.py:55-56 | Only the exact field-object list of some field list reads back as that list |
| `Blocks.ComposeBlocks` | training_manager/interface.py:95-101 | The loop returns `Present(blocks)`: the non-absent entries of the input, in their order |
| `Blocks.PresentSelectsInOrder` | training_manager/interface.py:95-101 | The k-th kept block is the entry at the k-th present position of the input. These positions strictly increase, and every present position is kept |
| `Blocks.PresentCount` | training_manager/interface.py:95-101 | The number of blocks kept equals the number of non-absent inputs |
| `Blocks.PresentAppend` | training_manager/interface.py:95-101 | Filtering a concatenation is the concatenation of the filtered parts |
| `Blocks.PresentAllSome` | training_manager/interface.py:176 | A block list with no absent entry, such as `[header, divider, *body]`, passes through the filter unchanged |
| `Blocks.GetBodyBlocks` | training_manager/interface.py:66-77 | The loop returns `BodyLayout(groups)`: one section per group, with a divider appended before every group except the first |
| `Blocks.BodyLayoutShape` | training_manager/interface.py:66-77 | n groups give 0 blocks when n = 0 and 2n-1 blocks otherwise. Index 2k holds the section of the k-th group, and every odd index holds a divider |
| `Blocks.BodyLayoutEnds` | training_manager/interface.py:66-77 | With at least one group, the first block and the last block are sections (of the first and last groups), never dividers |
| `Blocks.SectionsOfBodyLayout` | training_manager/interface.py:66-77 | Listing the fields of the layout's sections in order gives back exactly the groups the layout was built from |
| `Fields.RenderCapped` | training_manager/interface.py:165-170 | The `enumerate`/`break` loop returns min(10, n) fields for n pairs. The k-th field is the k-th pair formatted `*key:* \nvalue` |
| `Fields.RenderGroups` | training_manager/interface.py:163-170 | Gives one capped group per dictionary, in order, with min(10, pairs) fields each. An absent argument gives no group |
| `Fields.RenderAll` | training_manager/interface.py:221-224 | Renders every pair, with no cap, in order, all in one style: `*key:* value` for error, and `*key* : value` for result (lines 247-249) |
| `Interface.TrainingManager.constructor` | training_manager/interface.py:23-33 | A new manager keeps the user id and the resolved channel id and starts with an empty timestamp map |
| `Interface.TrainingManager.GetTs` | training_manager/interface.py:103-104 | Returns the stored timestamp for the id, or `None` exactly when the id has no entry |
| `Interface.TrainingManager.SendRichBlock` | training_manager/interface.py:117-131 | Posts the non-absent blocks in order to the manager's channel, with the given thread anchor, reply-broadcast flag and icon. It returns `(True, ts)` when the transport succeeds and `(False, code)` when it fails |
| `Interface.TrainingManager.SendLifecycle` | training_manager/interface.py:174-184 | Posts `[header, divider] + body` with the id's stored timestamp as the anchor. On failure the map is unchanged. On success it returns `(True, "")` and stores the new timestamp only if the id had no entry |
| `Interface.TrainingManager.SendTrainingStart` | training_manager/interface.py:157-184 | Posts header `学習開始 --- id`, a divider and `BodyLayout` of the capped groups, anchored at the prior `GetTs(id)`. On failure it returns `(False, code)` and the map is unchanged. On success it returns `(True, "")`, an absent entry becomes the new ts, and an existing entry is kept |
| `Interface.TrainingManager.SendProgress` | training_manager/interface.py:186-213 | The same as the start notice, with header `途中経過 --- id` and its own preview text |
| `Interface.TrainingManager.SendError` | training_manager/interface.py:215-239 | Posts header `エラーが発生しました --- id`, a divider and one section with every pair as `*key:* value` (empty when absent). It passes the reply-broadcast flag (default true) and the `:warning:` icon, with the same anchor and map rules |
| `Interface.TrainingManager.SendResult` | training_manager/interface.py:241-263 | Posts header `学習終了 --- id`, a divider and one section with every pair as `*key* : value`, with the same anchor and map rules |

`Interface.ThreadingScenario` and `Interface.TruncationScenario` are client methods. Their
assertions, which the verifier proves, state that a failed send stores nothing and that the first successful send opens the
thread. Later sends for the job are anchored at that first timestamp, whatever the
transport returns to them. Twelve pairs render as ten fields in a start or progress group
and as twelve in an error group.

## Left out

- The chat SDK (`WebClient`, `SlackApiError`): `conversations_open`, `chat_postMessage`
  and `files_upload` are network calls into code that is not part of this model.
  `chat_postMessage` is the `transport` oracle. An exception other than an API error,
  which Python would let propagate, is not modelled.
- `_get_channel_id` and its `ValueError` for an unknown user: this is a remote lookup.
  The resolved channel id is a constructor parameter.
- `send_file`: its path type check (`TypeError`), its `is_file` check (`ValueError`) and
  the upload are filesystem and network I/O.
- `send_plain_message`: it only forwards a text to the transport.
- `_get_footer_block`: no operation calls it.
- Python's dynamic typing: a block list holds `Option<Block>` values rather than
  arbitrary objects. Dictionary values are given as their `str()` forms, and dictionary
  keys are not required to be distinct, because no property here depends on that.
- The key order inside a block's dictionary: `Json` objects are maps.
- `Interface.TrainingManager.SendResult`: its dictionary argument cannot be absent.
  Source line 248 calls `.items()` without the `None` check that `send_error` has, so
  an absent argument raises an exception there and posts nothing.
- Concurrent use of one manager: the source is single-threaded and does not synchronise
  updates to `_ts_holder`.
