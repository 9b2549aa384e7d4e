# Flood: backend selector and torrent-creation submit, in Dafny

This project models two pieces of decision logic in the Flood web client.
Everything else in those components is React rendering.

1. **The connection-settings selector** (`ClientConnectionSettingsForm`).
   It holds one state field, `client`, which starts as rTorrent. The picker
   offers every supported backend. Its entry labels use the message key
   `connection.settings.` followed by the lower-cased backend name. The
   `switch` in render mounts exactly one backend-specific form for the
   current `client`. `getConnectionSettings` forwards to the mounted form
   through a nullable ref, and gives `null` while nothing is mounted.
   The model is module `ConnectionSettings`. The component is the class
   `ClientConnectionSettingsForm`, with `client` and a nullable `settingsRef`.
   The three backend forms are one class, `BackendSettingsForm`, with a
   fixed kind. Its field sets are not part of the source shown, so its
   inputs are an opaque map and extraction tags them with the form's own
   backend. React's commit after a state change is the method
   `CommitRender`. It keeps a mounted form of the same kind with its inputs.
   Otherwise it mounts a new, empty form of the rendered kind. This is why
   input is lost when the user switches to another backend and back
   (`SwitchAwayAndBack`).
2. **The torrent-creation submit handler** (`AddTorrentsByCreation`). The
   click handler bails out without a form. Otherwise it sets
   `isCreatingTorrents`. It bails out again without a source path, which
   leaves the flag set. Otherwise it dispatches a create-torrent request
   built from the partial form data, then saves the user preferences. The
   modal is dismissed later, in the request's continuation.
   The model is module `AddTorrentsByCreation`. The request builder
   (`BuildRequest`) and the calls one click makes (`ClickEffects`) are
   functions. The component is a class with the flag, a log of collaborator
   calls and a count of requests still awaiting their outcome. `Settle` is
   the arrival of one outcome. Only a success dismisses the modal.

Module `Text` holds the two JavaScript string operations the core uses:
`toLowerCase`, on ASCII letters only, and `split` on one character. It also
holds the `join` that undoes `split`, with both round trips proved.

The list of supported backends comes from
`shared/schema/constants/ClientConnectionSettings`, which is not part of
this model. It is taken to be qBittorrent, rTorrent, Transmission in that
order, the order in which the component's form union lists them.

On these points the model follows the code:
- The preferences are saved right after the dispatch, in the same handler
  run. They are not saved in the request's continuation.
- The handler does not read `isCreatingTorrents` before submitting. The flag
  is only passed on to the action bar.
- The selector returns the mounted form's extraction result unchanged.

## Model

| member | source | states |
|---|---|---|
| Text.LowerChar | client/src/javascript/components/general/connection-settings/ClientConnectionSettingsForm.tsx:19 | an ASCII capital becomes the letter 32 code points later; every other character is kept; the result is never a capital |
| Text.ToLower | client/src/javascript/components/general/connection-settings/ClientConnectionSettingsForm.tsx:19 | same length as the input, no capital left, each character lower-cased in place |
| Text.Split | client/src/javascript/components/modals/add-torrents-modal/AddTorrentsByCreation.tsx:119 | `split(',')` gives at least one piece, no piece holds the separator, and there is one more piece than separators |
| Text.JoinSplit | client/src/javascript/components/modals/add-torrents-modal/AddTorrentsByCreation.tsx:119 | joining the pieces of a split with the separator gives back the original string |
| Text.SplitJoin | client/src/javascript/components/modals/add-torrents-modal/AddTorrentsByCreation.tsx:119 | splitting the join of a non-empty list of separator-free pieces gives back that list, so split is one-to-one |
| ConnectionSettings.ClientFromName | client/src/javascript/components/general/connection-settings/ClientConnectionSettingsForm.tsx:80-84 | the id reported by the picker reads back as the backend of that name, and as no backend otherwise |
| ConnectionSettings.PickerItems | client/src/javascript/components/general/connection-settings/ClientConnectionSettingsForm.tsx:16-21 | one entry per backend in the same order; entry i has key and id equal to backend i's name and message key `connection.settings.` plus that name lower-cased |
| ConnectionSettings.PickerIdsNameClients | client/src/javascript/components/general/connection-settings/ClientConnectionSettingsForm.tsx:16-21 | every id the picker can report names exactly the backend of its entry, so the cast in the selection handler is sound |
| ConnectionSettings.SupportedPickerKeys | client/src/javascript/components/general/connection-settings/ClientConnectionSettingsForm.tsx:16-21 | the picker for the supported backends has three entries, with message keys for qbittorrent, rtorrent and transmission, in that order |
| ConnectionSettings.FormFor | client/src/javascript/components/general/connection-settings/ClientConnectionSettingsForm.tsx:57-70 | the form the switch mounts for a backend produces settings for that same backend |
| ConnectionSettings.FormForIsBijective | client/src/javascript/components/general/connection-settings/ClientConnectionSettingsForm.tsx:57-70 | each backend selects exactly one form kind and each form kind belongs to exactly one backend |
| ConnectionSettings.BackendSettingsForm.GetConnectionSettings | client/src/javascript/components/general/connection-settings/ClientConnectionSettingsForm.tsx:23-26 | a mounted backend form's extraction always succeeds and is tagged with that form's own backend |
| ConnectionSettings.ClientConnectionSettingsForm.constructor | client/src/javascript/components/general/connection-settings/ClientConnectionSettingsForm.tsx:33-41 | a new selector has rTorrent selected and no form mounted |
| ConnectionSettings.ClientConnectionSettingsForm.Render | client/src/javascript/components/general/connection-settings/ClientConnectionSettingsForm.tsx:53-92 | the rendered form belongs to the selected backend; the picker lists the supported backends under its label key and always defaults to rTorrent, which is one of its entries |
| ConnectionSettings.ClientConnectionSettingsForm.OnSelect | client/src/javascript/components/general/connection-settings/ClientConnectionSettingsForm.tsx:80-84 | picking a backend sets `client` to exactly that backend and changes nothing else |
| ConnectionSettings.ClientConnectionSettingsForm.CommitRender | client/src/javascript/components/general/connection-settings/ClientConnectionSettingsForm.tsx:57-70 | after the commit the ref points at a form for the selected backend; a form of the same kind stays mounted, any other is replaced by a new, empty one |
| ConnectionSettings.ClientConnectionSettingsForm.GetConnectionSettings | client/src/javascript/components/general/connection-settings/ClientConnectionSettingsForm.tsx:43-51 | None exactly when the ref is null; otherwise the mounted form's own result unchanged, tagged with the selected backend once the view is committed |
| ConnectionSettings.ExtractBeforeMount | client/src/javascript/components/general/connection-settings/ClientConnectionSettingsForm.tsx:43-48 | extraction from a selector that has not been rendered yet gives None |
| ConnectionSettings.SelectAndExtract | client/src/javascript/components/general/connection-settings/ClientConnectionSettingsForm.tsx:43-84 | for every backend, picking it and committing the view makes extraction give settings tagged with that backend |
| ConnectionSettings.SwitchAwayAndBack | client/src/javascript/components/general/connection-settings/ClientConnectionSettingsForm.tsx:57-84 | input typed into the rTorrent form is present before a switch and gone after switching to another backend and back |
| AddTorrentsByCreation.OrFalse | client/src/javascript/components/modals/add-torrents-modal/AddTorrentsByCreation.tsx:117-118 | the `false` default is true exactly when the field is present and true |
| AddTorrentsByCreation.SplitTags | client/src/javascript/components/modals/add-torrents-modal/AddTorrentsByCreation.tsx:119 | absent tags stay absent; present tags become comma-free pieces that join back to the tags string |
| AddTorrentsByCreation.BuildRequest | client/src/javascript/components/modals/add-torrents-modal/AddTorrentsByCreation.tsx:111-119 | name, source path, trackers, comment and info source are copied; isPrivate and start are true exactly when the field is present and true; tags are absent, or a non-empty comma-free list that joins back to the tags string, which by `Text.SplitJoin` is exactly the split |
| AddTorrentsByCreation.ClickEffects | client/src/javascript/components/modals/add-torrents-modal/AddTorrentsByCreation.tsx:99-129 | no call without a form or a source path; otherwise the built request is dispatched, then preferences are saved with the raw start flag, the source path as destination and tab `by-creation`; a click never dismisses the modal |
| AddTorrentsByCreation.SavesFollowCreatesAppend | client/src/javascript/components/modals/add-torrents-modal/AddTorrentsByCreation.tsx:111-128 | a click keeps every dispatched request immediately followed by the preference save for it |
| AddTorrentsByCreation.AddTorrentsByCreationForm.constructor | client/src/javascript/components/modals/add-torrents-modal/AddTorrentsByCreation.tsx:29 | `isCreatingTorrents` starts false, with no calls made and no request open |
| AddTorrentsByCreation.AddTorrentsByCreationForm.OnAddTorrentsClick | client/src/javascript/components/modals/add-torrents-modal/AddTorrentsByCreation.tsx:99-129 | without a form nothing changes; with one the flag ends true even when a missing source path stops the submission; the log grows by exactly the click's calls and one request is opened per dispatch |
| AddTorrentsByCreation.AddTorrentsByCreationForm.Settle | client/src/javascript/components/modals/add-torrents-modal/AddTorrentsByCreation.tsx:120-122 | only an open request can settle; only success dismisses the modal; the flag is not reset, and dismissals never outnumber dispatched requests |
| AddTorrentsByCreation.ExampleSubmission | client/src/javascript/components/modals/add-torrents-modal/AddTorrentsByCreation.tsx:111-119 | a submission with tags `movies,2024` and untouched flags gives tags `["movies", "2024"]`, the tracker list unchanged, and both flags false |

## Left out

- Text.ToLower: lower-cases ASCII capitals only. JavaScript's `toLowerCase` applies full Unicode case mapping, which the backend names do not need.
- ConnectionSettings.ClientConnectionSettingsForm.OnSelect: takes a backend, not the raw id string. The source casts the picker's id without a check. `PickerIdsNameClients` shows the picker only reports backend names, so the switch's `default` branch (mount nothing) is not modelled.
- ConnectionSettings.BackendSettingsForm.GetConnectionSettings: the three backend forms' field sets and defaults are not part of this model. Their inputs are an opaque map, and re-feeding an extracted value into a form is not modelled. Extraction from a mounted backend form is assumed always to yield a value, because those forms are not modelled. The selector's declared return type allows `null`, so a backend form that returns `null` is not captured. Only under this assumption does the selector give None exactly when no form is mounted.
- JSX layout, the `Form`, `Textbox`, `Checkbox`, `TagSelect` and `Select` widgets, and message lookup: these are UI. Message keys are kept as strings.
- `Form.getFormData` and `getTextArray`: these are not part of this model. The form data is a parameter of the click handler, and the trackers are an already gathered list.
- `TorrentActions.createTorrent`, `UIStore.dismissModal` and `saveAddTorrentsUserPreferences`: these are network and storage collaborators. They are recorded as entries of an effect log. Promise timing and the order in which several open requests settle are not modelled.
- The `intl` prop and the `injectIntl` wrapper: these only forward message lookup.
- server/util/ajaxUtil.js: response plumbing with no decision logic.
