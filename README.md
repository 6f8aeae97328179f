# Qt4 dialogs provider: filter flags, filter strings and the singleton

This project models the logic in VLC's Qt4 interface header
`modules/gui/qt4/dialogs_provider.hpp`. The `DialogsProvider` object opens the
player's dialogs. The header holds three pieces of logic:

- **File-type filter flags.** Five `EXT_FILTER_*` bit constants name the media,
  video, audio, playlist and subtitle categories. `showSimpleOpen` takes an
  OR-combination of them as its `filters` argument. When the caller gives none,
  the default requests media, video, audio and playlist files
  (module `FilterFlags`, file `filter_flags.dfy`).
- **Filter-string macros.** `ADD_FILTER_MEDIA` … `ADD_FILTER_SUBTITLE` append
  one entry to the caller's string variable. The entry is the translated label,
  `" ( "`, the category's pattern list and `");;"`. `ADD_FILTER_ALL` appends the
  translated "All Files" label and `" (*.*)"`, with no separator after it
  (module `FilterText`, file `filter_text.dfy`).
- **The singleton.** The static pointer `DialogsProvider::instance` is read and
  written by the following:
  - `getInstance()` asserts that the provider exists and returns it.
  - `getInstance(p_intf)` creates the provider on the first call. Later calls
    return the same provider and ignore their argument.
  - `killInstance()` deletes the provider, if there is one, and sets the
    pointer to null.

  These live in module `Provider`, file `provider.dfy`.

How the string changes is modelled as follows. Each macro grows a string
variable in place with successive `+=` steps. It becomes a method that takes the
variable's current value and returns its new value, and the body keeps the same
steps. Dafny has no static mutable fields, so the static pointer is the one
field of an `InstanceSlot` object.

To give the filter string a meaning beyond its shape, `FilterText.Split` is a
reference reader. It assumes that the consumer of the string separates filters
by `";;"` and by nothing else, and it splits the string into the pieces between
`";;"` separators. `FilterText.Terminated` is the string that a list of complete
entries forms. The read-back lemmas assume that the translated labels and the
pattern lists contain no `";;"`; single `';'` characters are allowed in them.
Under these assumptions, a string built by `ADD_FILTER_<category>` calls
followed by `ADD_FILTER_ALL` is read back as exactly the entries that were
appended, in the order they were appended, with the "All Files" entry last.

The singleton's guarantee is the invariant `Provider.InstanceSlot.Valid`. The
ghost set `created` records every provider the slot has made. A non-null pointer
refers to a live member of that set, and every other member is deleted, so at
most one provider made through the slot is live at any time. Every method of
the slot keeps this invariant.

## Model

| member | source | states |
|---|---|---|
| FilterFlags.Has | modules/gui/qt4/dialogs_provider.hpp:36-40 | testing a mask with `&` against one flag gives a non-zero result exactly when the whole flag is set |
| FilterFlags.MaskOf | modules/gui/qt4/dialogs_provider.hpp:100-102 | an OR-combination of flags never sets a bit outside the five flag bits |
| FilterText.LabelId | modules/gui/qt4/dialogs_provider.hpp:43-63 | the five untranslated captions ("Media Files", "Video Files", "Audio Files", "Playlist Files", "Subtitles Files") each end with " Files" and contain no ';' (a check on the literals, used by `FilterText.UntranslatedEntriesClean`) |
| FilterText.UntranslatedEntriesClean | modules/gui/qt4/dialogs_provider.hpp:42-69 | with the captions left untranslated, every category entry is clean and the "All Files" entry holds no ";;", so the read-back holds whenever the pattern lists hold no ";;" |
| FilterText.CaptionsDistinct | modules/gui/qt4/dialogs_provider.hpp:43-68 | the five category captions and "All Files" are pairwise distinct |
| FilterFlags.Flag | modules/gui/qt4/dialogs_provider.hpp:36-40 | each category's flag has exactly one bit set, and that bit is one of the low five (0x01, 0x02, 0x04, 0x08, 0x10) |
| FilterFlags.FlagsDisjoint | modules/gui/qt4/dialogs_provider.hpp:36-40 | flags of different categories share no bit, and two categories have the same flag iff they are the same category |
| FilterFlags.MaskOfHas | modules/gui/qt4/dialogs_provider.hpp:36-40 | an OR-combination of flags requests a category iff that category was one of those combined, so each category can be tested on its own |
| FilterFlags.MaskOfIsCanonical | modules/gui/qt4/dialogs_provider.hpp:36-40 | an OR-combined mask equals the mask with bit k set exactly when the k-th category is listed |
| FilterFlags.MaskOfDependsOnlyOnMembers | modules/gui/qt4/dialogs_provider.hpp:36-40 | two combinations give the same mask iff they list the same categories, regardless of order or repetition |
| FilterFlags.SimpleOpenDefaultFilters | modules/gui/qt4/dialogs_provider.hpp:99-103 | the default `filters` of `showSimpleOpen` is 0x0F and requests every category except subtitles |
| FilterText.AddFilter | modules/gui/qt4/dialogs_provider.hpp:42-66 | the old string is kept as an exact prefix; what is appended is exactly translated label, " ( ", pattern list, ");;"; the new length is the old length plus those parts; a string of complete entries becomes that list plus one entry |
| FilterText.AddFilterAll | modules/gui/qt4/dialogs_provider.hpp:67-69 | the old string is kept as an exact prefix; exactly the translated "All Files" label and " (*.*)" are appended; the result ends with " (*.*)"; appended to complete entries, it is read back as one last filter and adds no separator |
| FilterText.TerminatedSnoc | modules/gui/qt4/dialogs_provider.hpp:42-66 | appending an entry and its ";;" to a string of complete entries gives the string of the longer list |
| FilterText.SplitTerminated | modules/gui/qt4/dialogs_provider.hpp:42-69 | complete entries followed by a last piece with no ";;" are read back as exactly those entries, then that last piece |
| FilterText.SplitAfterPiece | modules/gui/qt4/dialogs_provider.hpp:42-66 | an entry without ";;" that does not end in ';', followed by the ";;" the macros write, is read as that entry followed by whatever comes after |
| FilterText.PieceClean | modules/gui/qt4/dialogs_provider.hpp:42-66 | an entry built from a label and a pattern list without ";;" contains no ";;" and does not end in ';', so its separator is the only place the reader splits |
| Provider.DialogsProvider.constructor | modules/gui/qt4/dialogs_provider.hpp:111-112 | a new provider is bound to the interface it was given and is not deleted |
| Provider.InstanceSlot.constructor | modules/gui/qt4/dialogs_provider.hpp:113 | the static pointer starts null, no provider has been created, and the singleton invariant holds |
| Provider.InstanceSlot.GetInstance | modules/gui/qt4/dialogs_provider.hpp:80-84 | requires an existing provider (the source's assert) and the singleton invariant; returns exactly that provider, which is live, and changes no state |
| Provider.InstanceSlot.GetInstanceFor | modules/gui/qt4/dialogs_provider.hpp:85-90 | with no provider, creates a fresh one bound to `p_intf` and records it as created; with one, returns that same provider and ignores `p_intf`; afterwards the pointer is the returned, live provider, and the singleton invariant still holds |
| Provider.InstanceSlot.KillInstance | modules/gui/qt4/dialogs_provider.hpp:91-95 | always leaves the pointer null and deletes the provider it held, if any; with no provider it only sets null again; afterwards every provider ever created is deleted, and the singleton invariant still holds |
| Provider.FirstWriterWins | modules/gui/qt4/dialogs_provider.hpp:80-90 | `getInstance(c1)` then `getInstance(c2)` then `getInstance()` yield one single provider, bound to `c1` |
| Provider.KillTwiceThenRecreate | modules/gui/qt4/dialogs_provider.hpp:85-95 | two `killInstance()` calls in a row leave the pointer null and the old provider deleted; the next `getInstance(c2)` creates a different provider bound to `c2` |

## Left out

- The public slots `playlistDialog` … `aboutDialog`, `openDialog(int)`, `popupMenu`, `PLAppendDir` and `MLAppendDir` (lines 116-148). Their bodies are not in the header, and they build Qt dialogs.
- The three `QSignalMapper` members and the slots `menuAction`, `menuUpdateAction` and `SDMenuAction` (lines 106-108, 137-139). The mapping happens inside Qt and is keyed by `QObject*` identity.
- `customEvent` and `doInteraction` (lines 109, 136). They forward events across threads through Qt's event queue.
- `fixed_timer`, the destructor body and `addFromSimple`. These are Qt objects or code outside the header. `delete` is modelled only as marking the provider deleted. Freeing memory and the destructor's effects are not modelled.
- `showSimpleOpen` itself. Only its default `filters` argument is in the header. How it turns a mask into macro calls, and in which category order, is code outside the header, so the model states nothing about that order or about deduplication.
- The translation function `_()` and the `EXTENSIONS_*` pattern lists are defined outside the header. They are the `translate` and `extensions` parameters.
- Provider.InstanceSlot.Valid: the invariant assumes that nothing besides `getInstance(p_intf)` and `killInstance()` writes `instance` or calls the constructor. The source does not enforce this: `QVLCMenu` is a friend class (line 105), and `DialogsProvider`'s own members can also reach the private pointer and constructor (lines 111-113). A provider made in any other way is not in `created`, and the model says nothing about it.
- Each `ADD_FILTER_*` macro expands to several statements and has no `do { } while (0)` wrapper. After an unbraced `if`, only the first `+=` would be conditional. The model treats each macro as one call that appends the whole entry, so it does not capture that hazard.
- The read-back lemmas assume that labels and pattern lists contain no ";;". A translation that does contain ";;" would make a file chooser see extra filters. The macros themselves do not guard against this.
- A check that `p_intf` is non-null. The header asserts only that `instance` exists, in `getInstance()`, and never checks `p_intf`, so `Provider.InstanceSlot.GetInstanceFor` accepts a null interface as the header does.
- Concurrency is not modelled. The header has no locking, and creation and teardown are assumed to happen on the single UI thread.
