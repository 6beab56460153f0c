# Card album controller — a Dafny model

The card album is a web page where a visitor flips collectible cards to reveal
them. It has a search box, a featured "pact of the day", a settings panel, and
four modal views: changelog, legal notice, comments and card detail. Its whole
behaviour lives in one controller script, `script.js`. This project models the
state logic of that controller and proves properties of it:

- **Reveal progress.** Clicking a card flips it, records its id in
  `seenCards` at most once, and gives the delay before the detail view.
  "Reveal all" records every id. "Clear" empties the list and reloads. The
  counter shows `|seenCards| / |cards|`.
- **Popups.** At most one modal is active. Opening a modal closes the
  settings panel. Closing does nothing when no modal is open. Dismissing the
  legal notice records `legalAccepted`, and nothing ever resets it. Escape
  closes the modal, or else the settings panel. The card-detail view moves
  around the visible cards in a circle.
- **Settings.** The stored record is shallow-merged over the defaults. The
  mute list is kept free of duplicates. The card back is `index % 3` of three
  built-in images, or the user's own image.
- **Card of the day.** The seed is `year * 1000 + month * 100 + day`, with a
  0-based month. It picks `cards[seed % n].id`, using JavaScript's `%`.

Files:
- `wrappers.dfy`: `Option`.
- `js.dfy`: the JavaScript built-ins as the script uses them. These are the
  `%` operator, `trim`, the `includes`-then-`push` idiom and `filter`.
- `settings_store.dfy`: the settings record, its defaults, the stored record
  and the merge, and the card-back choice.
- `deck.dfy`: cards, their ids, `findIndex`, circular navigation and the card
  of the day.
- `album.dfy`: the `Controller` class. It holds the script's module-level
  state, and each event handler is a method that states the new state.

The page's I/O is abstracted as follows:
- A sound is recorded as a requested cue name in `cues`.
- A write to local storage is recorded as the record written, in `storage`.
- A page reload sets `reloadRequested`.
- A `confirm` dialog becomes a `confirmed` parameter.
- The date and the search library's matches become parameters.

## Model

| member | source | states |
|---|---|---|
| `Js.Rem` | script.js:250 | JavaScript `%`: agrees with the mathematical remainder for non-negative dividends, and is non-positive and above `-n` for negative ones |
| `Js.TrimStart` | script.js:143 | the first half of `trim`: the result is a suffix of the input, it does not start with whitespace, and only whitespace was dropped |
| `Js.TrimEnd` | script.js:143 | the second half of `trim`: the result is a prefix of the input, it does not end with whitespace, and only whitespace was dropped |
| `Js.Trim` | script.js:143 | `query.trim()`: the result is one contiguous slice of the query, neither end of it is whitespace, and everything cut off on either side is whitespace |
| `Js.TrimEmptyIffBlank` | script.js:143-145 | a query trims to the empty string exactly when every character is whitespace |
| `Js.AddOnce` | script.js:442 | `includes`-then-`push`: the value is present afterwards, nothing else is added, the old contents stay as a prefix, nothing changes when it was present, and a duplicate-free list stays duplicate-free |
| `Js.RemoveAll` | script.js:443 | `filter(s => s !== x)`: no occurrence of `x` is left, every other value keeps its multiplicity, and the length drops by the number of occurrences of `x` |
| `Js.RemoveAllUndoesAddOnce` | script.js:442-443 | checking and then unchecking a mute box leaves the same list as unchecking alone |
| `Js.RemoveAllIdempotent` | script.js:443 | unchecking twice is the same as unchecking once |
| `Js.AddOnceIdempotent` | script.js:442 | checking twice is the same as checking once |
| `SettingsStore.ToRecord` | script.js:264-270 | a saved record carries every field of the settings |
| `SettingsStore.Merge` | script.js:255-262 | `Object.assign`: each field present in the stored record wins, and each absent field keeps its current value |
| `SettingsStore.MergeOfSavedIsSaved` | script.js:255-270 | loading a record that was saved gives back exactly the saved settings |
| `SettingsStore.MergeOfEmptyIsBase` | script.js:258 | a stored record with no fields changes nothing |
| `SettingsStore.MergeIdempotent` | script.js:258 | merging the same record twice is merging it once |
| `SettingsStore.OldRecordGetsDefaultLegalAccepted` | script.js:255-262 | an older record without `legalAccepted` loads with the default `false` and keeps its `seenCards` |
| `SettingsStore.CardBackUrl` | script.js:337-343 | with the "default" skin the result is built-in back `index % 3`; otherwise it is the user's chosen image |
| `SettingsStore.CardBackPeriodic` | script.js:337-343 | the card backs repeat with period three |
| `SettingsStore.NeighbouringDefaultBacksDiffer` | script.js:339-340 | with the default skin, neighbouring cards never share a back |
| `Deck.Ids` | script.js:295 | `cards.map(c => c.id)`: one id per card, in order, and exactly the deck's ids |
| `Deck.UniqueIdsGiveNoDup` | script.js:295 | on a deck with unique ids, "reveal all" records each id exactly once |
| `Deck.FindIndex` | script.js:233 | `findIndex`: the first position holding the id, or -1 exactly when no card has it |
| `Deck.FindIndexFindsMembers` | script.js:233-234 | the lookup succeeds exactly for ids of the visible cards |
| `Deck.Navigate` | script.js:248-252 | from a number at least -1 and with a non-empty list, the new index lies in `[0, n)`; an empty list or a NaN index gives NaN |
| `Deck.NextFromLastIsFirst` | script.js:250 | "next" from the last card gives the first |
| `Deck.PreviousFromFirstIsLast` | script.js:250 | "previous" from the first card gives the last |
| `Deck.NavigateStepsByOne` | script.js:250 | away from the ends, "next" and "previous" move by exactly one card |
| `Deck.NavigateInverse` | script.js:404-405 | "previous" undoes "next", and "next" undoes "previous" |
| `Deck.NavigateTimesForward` | script.js:250 | `k` presses of "next" that do not reach the end move `k` cards on |
| `Deck.FullLapReturns` | script.js:250 | `n` presses of "next" over `n` cards come back to the starting card |
| `Deck.PactOfTheDay` | script.js:345-349 | the featured id is the id of the card at `seed % n`; there is none for an empty deck or a negative remainder |
| `Deck.PactSeed` | script.js:347 | the day's seed `year*1000 + month*100 + day` (month counted from 0) lies between `year*1000 + 1` and `year*1000 + 1131` on a calendar date |
| `Deck.PactOfTheDayExists` | script.js:347-348 | on every calendar date a non-empty deck has a featured card, at an index in range |
| `Deck.SeedDistinctWithinYear` | script.js:347 | within one year, different days get different seeds |
| `Deck.SeedRepeatsAcrossYears` | script.js:347 | 1 November of one year and 1 January of the next share a seed, and so a featured card |
| `Album.AcceptOnClose` | script.js:162-165 | closing the legal notice makes `legalAccepted` true; closing any other modal leaves the settings alone |
| `Album.OpenModalAsWritten` | script.js:150-153 | as written, opening any real modal throws, and the active modal and the panel stay as they were |
| `Album.AsWrittenNoModalOpens` | script.js:150-153 | as written, no modal ever becomes active from the idle page |
| `Album.Controller.constructor` | script.js:26-36 | the initial state: default settings, no modal open, no cards shown, index -1, featured id -1 |
| `Album.Controller.SaveSettings` | script.js:264-270 | the stored record becomes the full current settings |
| `Album.Controller.UpdateCardCounter` | script.js:131-134 | the counter reads revealed ids over all cards |
| `Album.Controller.LoadSettings` | script.js:255-262 | a stored record is merged over the settings; an absent record changes nothing; an unreadable one changes nothing and logs a `loadSettings` error |
| `Album.Controller.CalculatePactOfTheDay` | script.js:345-349 | the featured id becomes the card of the day for the given date |
| `Album.Controller.DisplayCards` | script.js:85-101 | the visible list becomes the given cards, and a card shows flipped exactly when its id has been seen |
| `Album.Controller.HandleSearch` | script.js:141-147 | a query that is blank shows every card in original order; otherwise the matches are shown; afterwards exactly the shown cards already seen carry the flipped mark |
| `Album.Controller.HandleCardClick` | script.js:116-129 | see the description below this table |
| `Album.Controller.RevealAllCards` | script.js:292-300 | once confirmed, every card id is seen and saved, every shown card is flipped, and the counter reads n / n; unconfirmed, nothing changes |
| `Album.Controller.ClearSeenCards` | script.js:283-290 | once confirmed, the seen list is emptied and saved and a reload is requested; unconfirmed, nothing changes |
| `Album.Controller.OpenModal` | script.js:150-157 | no modal means no change; otherwise the settings panel is closed and the requested modal becomes the only active one |
| `Album.Controller.CloseModal` | script.js:159-175 | see the description below this table |
| `Album.Controller.OpenCardViewModal` | script.js:231-237 | the index becomes the id's position; an id not among the visible cards opens nothing, and otherwise the detail view opens on that card |
| `Album.Controller.NavigateCard` | script.js:248-252 | the index moves one step around the visible cards, stays in range when the list is non-empty, and the roll cue plays |
| `Album.Controller.HandleKeydown` | script.js:407-419 | Escape closes the active modal, or else the settings panel; the arrow keys navigate only while the card-detail modal is active; `legalAccepted` never reverts |
| `Album.Controller.ToggleSettingsPanel` | script.js:423-428 | the settings panel flips between open and shut, with the button cue |
| `Album.Controller.HandleDocumentClick` | script.js:394-399 | a click outside the panel and its button closes the panel; any other click leaves it alone |
| `Album.Controller.HandleMuteToggle` | script.js:439-446 | checking adds the sound name unless present; unchecking removes every occurrence; other names are unaffected; the settings are saved |
| `Album.ProgressSurvivesReload` | script.js:116-129 | a card flipped in one session is still flipped after a reload that loads the saved settings, and the seen counter reads 1 of the deck size before and after |

`Album.Controller.HandleCardClick` behaves as follows:
- A card that was already flipped opens after delay 0. Nothing else changes.
- An unflipped card plays the flip cue, becomes flipped, and opens after
  delay 650.
- If that card's id was not yet seen, the id is added, the settings are
  saved and the counter is updated. An id already seen is not added again
  and nothing is saved.
- Seen ids are never lost, and no duplicate appears.

`Album.Controller.CloseModal` behaves as follows:
- With no modal open, nothing changes.
- Otherwise no modal is active afterwards, and the button cue plays.
- Closing the legal notice sets `legalAccepted` and saves the settings, but
  only when it was not already set.
- `legalAccepted` never goes back to false.
- Afterwards the settings panel and a modal are never open together.

## Left out

- DOM rendering is not modelled: card markup, the detail view's text and
  image, `applySettings`, the overlay and the page-scroll lock. The "flipped"
  class is kept, as a set of card ids.
- Closing the comments modal resets it to its category list (lines 170-173).
  This only toggles visibility classes in the page, so it is not modelled.
- `Album.Controller.ToggleSettingsPanel` does not preserve "at most one of
  panel and modal open". In the page, the modal overlay stops clicks from
  reaching the settings button, and that is presentation.
- `Js.RemoveAll` states contents and multiplicities. It does not state that
  the remaining names keep their order. Nothing in the script reads that
  order.
- Loading the data file, the start-up sequence (`init`, `activateApp`), the
  visitor counter and the comment-widget script are not modelled. They are
  network I/O.
- The changelog, legal and comments openers build content and then call
  `openModal`. Their "no content" case is `OpenModal(None)`.
- Decks whose ids repeat are not modelled. The page keeps the flipped mark on
  each card element, the model keeps it per id, and the two agree only while
  ids are unique, so `Album.Controller.Valid` requires unique ids (the data
  file gives every card its own id).
- Fuzzy search ranking belongs to a third-party library. Its results are a
  parameter of `HandleSearch`, assumed to be cards of the deck.
- Audio loading and playback are not modelled. Neither are the mute and
  volume checks in `playSound`. Only the cues requested are recorded.
  `masterVolume` is an opaque stored value.
- Storage is modelled abstractly, without serialisation. A stored record
  whose fields have the wrong types, or that has extra keys, is not
  modelled.
- `Album.Controller.SaveSettings` always succeeds. A failed storage write is
  caught and logged in the script; that path is not modelled.
- Timers are not modelled. `HandleCardClick` returns the delay, and the
  caller then runs `OpenCardViewModal`. The 500 ms legal-notice timer and
  the random subtitle rotator are also left out.
- The reset-all-settings button, the other settings selectors (theme, card
  back, aura, volume) and the debug-info copy are not modelled. They are
  dialogs, clipboard I/O or single field writes outside this model.
- The detail view cannot display a NaN or out-of-range index. In the script
  that throws after the index is updated. The model keeps the updated index
  and does not model the exception.

## Findings

| source | as written | input that shows it | evidently intended | confidence | as-written member | corrected member |
|---|---|---|---|---|---|---|
| script.js:152 | `openModal` calls `closeAllPopups()`, which `script.js` never defines. The call throws a ReferenceError before `activeModal` is assigned, so no modal ever opens. | a click on the changelog button with no modal open (or the legal notice at start-up, or opening any card) | close the settings panel and any open modal, then make the requested modal active | medium, not executed: a global `closeAllPopups` defined outside `script.js` would make it work | `Album.OpenModalAsWritten` | `Album.Controller.OpenModal` |

The rest of the model uses the corrected `OpenModal`, which closes the
settings panel and then sets the active modal.
