# Media sending and avatar actions of a chat client, in Dafny

This project models two components of the home screen of a web chat client
built on a managed real-time backend.

**`MediaDropdown`** (module `Media`, class `Media.MediaDropdown`) stages at
most one image and one video and sends either one. Its state is three cells:
`selectedImage`, `selectedVideo` and a single `isLoading` flag shared by
both kinds. Choosing a file replaces that kind's selection; closing a
dialog clears it. A send sets the flag and runs four awaited steps in
order: obtain an upload URL, POST the file with its own MIME type as
`Content-Type`, read `storageId` from the JSON response, and commit the
message (`sendImage` or `sendVideo`) with that storage id, the current
user's id and the selected conversation's id. If every step succeeds, the
selection of that kind is cleared. If any step throws, one toast is shown
and the selection stays. The flag is cleared in `finally`.

Every collaborator is an outcome parameter (`Outcome = Ok(v) | Err`). The
model does not run them. A ghost `trace` records, in order, each state
update, each collaborator call with its arguments, and each toast. The
class invariant `Valid()` says the three cells are always the replay of the
trace. The pure functions `TryBlock` and `SendTrace` give the effects of
one send as a function of the outcomes. The lemmas state the call order,
when the commit happens, the call arguments, and the final state.

**`ChatAvatarActions`** (module `AvatarActions`) covers the following:
- the membership test (`includes` on the participant ids);
- which control is shown: the remove-user icon for the admin, or the ban
  marker for a sender who is no longer a member;
- removing the sender (`filter` on the participants);
- opening a direct conversation with the sender.

The store cell `selectedConversation` is a field of class
`AvatarActions.AvatarActions`. Each backend mutation is an outcome
parameter. The backend calls and the toasts are kept in ghost logs.

The record types are in module `ChatStore`: `User` and `Conversation`, with
the fields these components read. The optional `Option` and `Outcome`
wrappers are in module `Wrappers`.

Details of the code that the model keeps:
- The code uses one `isLoading` flag for both kinds, so a send of either
  kind disables both Send buttons.
- A failed send keeps the selection; only a send that reaches its end
  clears it.
- A JSON response without a `storageId` field is not treated as an error.
  The field reads as `undefined` and the commit is still made, with that
  absent id (`None`). Only a body that cannot be read or destructured
  counts as a failure of the parse step.
- `fetch` resolves for any HTTP status, and the code never checks
  `result.ok`. A POST outcome `Ok` therefore means the request completed,
  whatever its status.
- A null selection (`selected!.type`) throws after the upload URL is
  obtained and before the POST. A missing `me` or conversation (`me!._id`,
  `selectedConversation!._id`) throws while the commit's arguments are
  built, so the commit call is never made. The same holds for a missing
  `me` when a direct conversation is created.
- Preview handles are never released. The video preview's object URL is
  never revoked.

## Model

| member | source | states |
|---|---|---|
| `Media.TryBlock` | src/components/home/media-dropdown.tsx:34-46 | the try block's effects are collaborator calls only, always starting with the upload URL request; a block that runs to its end made four calls, the last a commit |
| `Media.SendTrace` | src/components/home/media-dropdown.tsx:32-54 | a whole handler starts by setting the loading flag and ends by clearing it (`finally`), with no other change of the flag in between |
| `Media.CallsInFixedOrder` | src/components/home/media-dropdown.tsx:34-46 | the try block makes only collaborator calls, between one and four, in the fixed order upload URL, POST, parse, commit, each at most once |
| `Media.CommitOnlyAfterTransfer` | src/components/home/media-dropdown.tsx:35-46 | a commit call is made iff the upload URL, the POST and the parse all succeeded and the selection, `me` and the conversation were present; after any earlier failure no commit is made |
| `Media.CommitArguments` | src/components/home/media-dropdown.tsx:42-46 | the commit is the kind's own mutation (`sendImage`/`sendVideo`) with the parsed storage id, `me._id` and `selectedConversation._id` |
| `Media.PostArguments` | src/components/home/media-dropdown.tsx:36-40 | the POST goes to the negotiated URL with `Content-Type` equal to the selected file's type and the file itself as body |
| `Media.CompletesIffSucceeds` | src/components/home/media-dropdown.tsx:34-48 | the try block runs to the end exactly when every step succeeds (the resulting clearing of the selection is stated by `SendSettles` and `HandleSend`) |
| `Media.SendSettles` | src/components/home/media-dropdown.tsx:32-54 | after a send: the loading flag is off; that kind's selection is null on success and unchanged on failure; the other kind's selection is unchanged; the toasts are none on success and exactly the one failure message on failure |
| `Media.LoadingWhileCalling` | src/components/home/media-dropdown.tsx:32-79 | at every collaborator call of a send the shared flag is on, so neither kind's Send button is available (`SendAvailable`: a kind's button renders while that kind is selected, lines 99-116, and is disabled by the flag, lines 180 and 226) |
| `Media.Bracketed` | src/components/home/media-dropdown.tsx:33-53 | a handler's outline (flag on, calls, one closing effect, flag off) ends in the closing effect's state with the flag off and shows only that effect's toast |
| `Media.MediaDropdown.constructor` | src/components/home/media-dropdown.tsx:21-23 | both selections start null, the flag false, the trace empty |
| `Media.MediaDropdown.SetIsLoading` | src/components/home/media-dropdown.tsx:23 | `setIsLoading` changes only the flag and keeps the invariant |
| `Media.MediaDropdown.SetSelected` | src/components/home/media-dropdown.tsx:21-22 | `setSelectedImage`/`setSelectedVideo` change only that kind's cell |
| `Media.MediaDropdown.OnFileChange` | src/components/home/media-dropdown.tsx:83-97 | the first chosen file (`FirstFile`: `files[0]` at lines 88 and 96, null for an empty list) replaces that kind's selection; the other selection and the flag are unchanged |
| `Media.MediaDropdown.OnDialogClose` | src/components/home/media-dropdown.tsx:99-116 | closing a dialog sets only that kind's selection to null |
| `Media.MediaDropdown.TrySend` | src/components/home/media-dropdown.tsx:34-46 | the awaited steps log exactly the calls of `TryBlock` and report a throw exactly when it does not complete |
| `Media.MediaDropdown.Settle` | src/components/home/media-dropdown.tsx:48-53 | success clears that kind's selection, a throw shows the toast; the flag ends false and the other kind is untouched |
| `Media.MediaDropdown.HandleSend` | src/components/home/media-dropdown.tsx:32-79 | a whole send appends `SendTrace` to the trace; that kind's selection becomes null iff every step succeeds; the other kind's selection is unchanged; the flag ends false |
| `AvatarActions.Includes` | src/components/home/chat-avatar-actions.tsx:16-17 | the scan returns true iff the id occurs in the list |
| `AvatarActions.IsMember` | src/components/home/chat-avatar-actions.tsx:16-17 | true iff a conversation is selected and its participants contain the sender; false with no selection |
| `AvatarActions.Without` | src/components/home/chat-avatar-actions.tsx:31-36 | the filtered list holds exactly the ids of the input other than the sender, and is no longer than the input |
| `AvatarActions.WithoutConcat` | src/components/home/chat-avatar-actions.tsx:33-35 | filtering distributes over concatenation, so kept ids stay in their original order |
| `AvatarActions.WithoutCounts` | src/components/home/chat-avatar-actions.tsx:33-35 | every occurrence of the sender is removed and every other id keeps its multiplicity |
| `AvatarActions.WithoutAbsent` | src/components/home/chat-avatar-actions.tsx:33-35 | removing an id that is not a participant leaves the list unchanged |
| `AvatarActions.ShownControls` | src/components/home/chat-avatar-actions.tsx:69-76 | remove control iff member and `admin == me._id`; ban marker iff not a member; never both |
| `AvatarActions.RemovedSenderIsBanned` | src/components/home/chat-avatar-actions.tsx:31-36 | after a removal the sender is no longer a member and sees the ban marker only; other participants keep their membership |
| `AvatarActions.DirectConversationControls` | src/components/home/chat-avatar-actions.tsx:50-57 | in the record `DirectConversation` builds (returned id, not a group, participants `[me, sender]`, no admin, the sender's name, online flag and image) both users are members and neither control shows |
| `AvatarActions.AvatarActions.constructor` | src/components/home/chat-avatar-actions.tsx:14-15 | the cell holds the store's selection; no call or toast yet |
| `AvatarActions.AvatarActions.HandleRemoveUser` | src/components/home/chat-avatar-actions.tsx:22-41 | with no selection nothing changes and no call is made; otherwise one `removeUser(conversation id, sender)` call; success keeps every field but `participants`, which becomes the filtered list; failure keeps the selection and shows one toast |
| `AvatarActions.AvatarActions.HandleCreateConversation` | src/components/home/chat-avatar-actions.tsx:43-61 | without a current user no call is made, the selection is kept and one toast is shown; otherwise one `createConversation(isGroup = false, [me, sender])` call; success selects the record with the returned id, those two participants and the sender's name, online flag and image; failure keeps the selection and shows one toast |

## Left out

- Rendering and UI libraries (dropdown menus, dialogs, `Image`, `ReactPlayer`) are presentation only. Only the rule "a Send button exists while its kind is selected and is disabled by `isLoading`" is kept, as `Media.SendAvailable`.
- Local previews (`FileReader.readAsDataURL`, `URL.createObjectURL`) are browser calls. They are not modelled, and no release of preview resources is claimed.
- The network and the backend (`fetch`, JSON parsing, the `generateUploadUrl`, `sendImage`, `sendVideo`, `removeUser` and `createConversation` mutations) are outcome parameters. Their internals and argument validation are not modelled.
- Toasts are kept only as ghost logs of their messages. `console.log` is left out.
- The file inputs' `accept` filters (`image/*`, `video/mp4`) are browser hints. The model puts no constraint on the MIME type of a selection.
- Concurrency: each handler runs as one atomic sequence over given outcomes. Interleaving two sends, and the closures reading a stale selection, are not modelled. The consequence of the shared flag for the other kind is stated in `Media.LoadingWhileCalling`.
- `e.stopPropagation()` in `handleRemoveUser` is event plumbing and is left out. It keeps the parent's create-conversation click from also firing.
- AvatarActions.ShownControls: takes the current user's id as given. With a member sender and no current user, the source throws while rendering (it reads `me._id` only after `isMember` holds); render failures are not modelled.
- src/components/home/chat-bubble-avatar.tsx is presentation context and is not part of this model.
- The store module that defines the conversation and message types is not part of this model. `ChatStore.Conversation` holds only the fields these components read or write.
