/**
 * The state logic of the card-album page controller: reveal progress, the
 * single active modal, the settings panel, the card-detail view, the mute
 * toggles and the loading of stored settings. The page's DOM, audio and
 * network layers are abstracted: a sound is recorded as a requested cue, a
 * write to local storage as the record written, a reload as a flag.
 */
module Album {
  import opened Wrappers
  import opened Js
  import opened Deck
  import opened SettingsStore

  /** The four modal surfaces of the page. */
  datatype Modal = Changelog | Legal | Comments | CardView

  const FlipCue := "flip"
  const RollCue := "roll"
  const ButtonCue := "button"

  /** The pause between the flip animation and the detail view, in milliseconds. */
  const FlipToDetailDelay: nat := 650

  /** The settings after closing `closed`: dismissing the legal notice records its acceptance. */
  function AcceptOnClose(s: Settings, closed: Modal): (r: Settings)
    ensures r.legalAccepted <==> s.legalAccepted || closed == Legal
    ensures r == s.(legalAccepted := r.legalAccepted)
  {
    if closed == Legal then s.(legalAccepted := true) else s
  }

  /** The error `openModal` raises as written. */
  datatype Thrown = ReferenceError(name: string)

  /**
   * `openModal` as script.js has it: `closeAllPopups` is defined nowhere in
   * the script, so for any real modal the call throws before `activeModal`
   * is assigned, and the active modal and the panel stay as they were.
   */
  function OpenModalAsWritten(active: Option<Modal>, panelOpen: bool, modal: Option<Modal>)
    : (r: (Option<Modal>, bool, Option<Thrown>))
    ensures r.0 == active && r.1 == panelOpen
    ensures r.2.Some? <==> modal.Some?
  {
    if modal.None? then (active, panelOpen, None)
    else (active, panelOpen, Some(ReferenceError("closeAllPopups")))
  }

  /** As written, no modal can ever become active from the idle page. */
  lemma AsWrittenNoModalOpens(m: Modal, panelOpen: bool)
    ensures OpenModalAsWritten(None, panelOpen, Some(m)).0 != Some(m)
    ensures OpenModalAsWritten(None, panelOpen, Some(m)).2 == Some(ReferenceError("closeAllPopups"))
  {
  }

  class Controller {
    /** `appData.cards`, fixed once the data file is loaded. */
    const cards: seq<Card>
    var settings: Settings
    /** The record `saveSettings` last wrote to local storage in this session. */
    var storage: Option<StoredRecord>
    var activeModal: Option<Modal>
    var settingsPanelOpen: bool
    /** The cards currently rendered in the gallery, in order. */
    var visibleCards: seq<Card>
    var currentCardIndex: CardIndex
    /** Ids of the rendered cards that carry the "flipped" class. */
    var flipped: set<int>
    var pactOfTheDayId: Option<int>
    /** The counter text, as (revealed, total); none before its first update. */
    var counter: Option<(nat, nat)>
    /** The sound cues requested, in order. */
    var cues: seq<string>
    /** The origin tags of the errors caught and logged. */
    var caughtErrors: seq<string>
    var reloadRequested: bool

    ghost predicate Valid()
      reads this
    {
      && UniqueIds(cards)
      && (currentCardIndex.Index? ==> currentCardIndex.i >= -1)
      && (forall c :: c in visibleCards ==> c in cards)
      && flipped <= IdSet(visibleCards)
    }

    /** Every card shown flipped has been recorded as seen. */
    ghost predicate FlippedAreSeen()
      reads this
    {
      forall id :: id in flipped ==> id in settings.seenCards
    }

    /** The settings panel and a modal are never open together. */
    ghost predicate AtMostOneOpen()
      reads this
    {
      !(settingsPanelOpen && activeModal.Some?)
    }

    /** The controller as the script's globals start, once the data file has loaded. */
    constructor (cards: seq<Card>)
      requires UniqueIds(cards)
      ensures Valid() && FlippedAreSeen()
      ensures this.cards == cards && settings == Defaults && storage.None?
      ensures activeModal.None? && !settingsPanelOpen
      ensures visibleCards == [] && currentCardIndex == Index(-1) && flipped == {}
      ensures pactOfTheDayId == Some(-1) && counter.None?
      ensures cues == [] && caughtErrors == [] && !reloadRequested
    {
      this.cards := cards;
      settings := Defaults;
      storage := None;
      activeModal := None;
      settingsPanelOpen := false;
      visibleCards := [];
      currentCardIndex := Index(-1);
      flipped := {};
      pactOfTheDayId := Some(-1);
      counter := None;
      cues := [];
      caughtErrors := [];
      reloadRequested := false;
    }

    /** `saveSettings`: the whole record is written under the storage key. */
    method SaveSettings()
      modifies this`storage
      ensures storage == Some(ToRecord(settings))
    {
      storage := Some(ToRecord(settings));
    }

    /** `updateCardCounter`: the counter shows revealed ids over all cards. */
    method UpdateCardCounter()
      modifies this`counter
      ensures counter == Some((|settings.seenCards|, |cards|))
    {
      counter := Some((|settings.seenCards|, |cards|));
    }

    /** `loadSettings`: a stored record is merged field by field over the current settings. */
    method LoadSettings(read: StorageRead)
      modifies this`settings, this`caughtErrors
      ensures read.Stored? ==> settings == Merge(old(settings), read.record)
      ensures !read.Stored? ==> settings == old(settings)
      ensures caughtErrors == old(caughtErrors) + (if read.Unreadable? then ["loadSettings"] else [])
    {
      match read
      case NothingStored =>
      case Unreadable =>
        caughtErrors := caughtErrors + ["loadSettings"];
      case Stored(record) =>
        settings := Merge(settings, record);
    }

    /** `calculatePactOfTheDay`: the featured id for today's date. */
    method CalculatePactOfTheDay(today: Date)
      modifies this`pactOfTheDayId
      ensures pactOfTheDayId == PactOfTheDay(cards, today)
    {
      pactOfTheDayId := PactOfTheDay(cards, today);
    }

    /**
     * `displayCards`: the gallery is rebuilt from `cs`, and a card comes out
     * flipped exactly when its id has been seen.
     */
    method DisplayCards(cs: seq<Card>)
      requires Valid()
      requires forall c :: c in cs ==> c in cards
      modifies this`visibleCards, this`flipped
      ensures Valid() && FlippedAreSeen()
      ensures visibleCards == cs
      ensures forall id :: id in flipped <==> id in IdSet(cs) && id in settings.seenCards
    {
      visibleCards := cs;
      flipped := set c | c in cs && c.id in settings.seenCards :: c.id;
    }

    /**
     * `handleSearch`: a query that trims to nothing shows every card in its
     * original order; otherwise the matches the search library returned.
     */
    method HandleSearch(query: string, matches: seq<Card>)
      requires Valid()
      requires Trim(query) != "" ==> forall c :: c in matches ==> c in cards
      modifies this`visibleCards, this`flipped
      ensures Valid() && FlippedAreSeen()
      ensures IsBlank(query) ==> visibleCards == cards
      ensures !IsBlank(query) ==> visibleCards == matches
      ensures forall id :: id in flipped <==> id in IdSet(visibleCards) && id in settings.seenCards
    {
      TrimEmptyIffBlank(query);
      if Trim(query) != "" {
        DisplayCards(matches);
      } else {
        DisplayCards(cards);
      }
    }

    /**
     * `handleCardClick` on the rendered card `id`: an unflipped card is
     * flipped with the flip cue and its id recorded as seen (once only, and
     * then saved and counted); the detail view is due after `delay`.
     */
    method HandleCardClick(id: int) returns (delay: nat)
      requires Valid()
      requires id in IdSet(visibleCards)
      modifies this`settings, this`storage, this`flipped, this`counter, this`cues
      ensures Valid()
      ensures flipped == old(flipped) + {id}
      ensures delay == if id in old(flipped) then 0 else FlipToDetailDelay
      ensures id in old(flipped) ==>
        settings == old(settings) && storage == old(storage) && counter == old(counter) && cues == old(cues)
      ensures id !in old(flipped) ==> cues == old(cues) + [FlipCue]
      ensures id !in old(flipped) ==>
        settings == old(settings).(seenCards := AddOnce(old(settings.seenCards), id))
      ensures id !in old(flipped) && id in old(settings.seenCards) ==>
        settings == old(settings) && storage == old(storage) && counter == old(counter)
      ensures id !in old(flipped) && id !in old(settings.seenCards) ==>
        storage == Some(ToRecord(settings)) && counter == Some((|settings.seenCards|, |cards|))
      ensures forall x :: x in old(settings.seenCards) ==> x in settings.seenCards
      ensures NoDup(old(settings.seenCards)) ==> NoDup(settings.seenCards)
      ensures old(FlippedAreSeen()) ==> FlippedAreSeen() && id in settings.seenCards
    {
      var wasFlipped := id in flipped;
      if !wasFlipped {
        cues := cues + [FlipCue];
        flipped := flipped + {id};
        if id !in settings.seenCards {
          settings := settings.(seenCards := settings.seenCards + [id]);
          SaveSettings();
          UpdateCardCounter();
        }
      }
      delay := if wasFlipped then 0 else FlipToDetailDelay;
    }

    /**
     * `revealAllCards`: once confirmed, every card id is recorded as seen,
     * saved, every rendered card is flipped and the counter reads n / n.
     */
    method RevealAllCards(confirmed: bool)
      requires Valid()
      modifies this`settings, this`storage, this`flipped, this`counter, this`cues
      ensures Valid()
      ensures !confirmed ==>
        && settings == old(settings) && storage == old(storage) && flipped == old(flipped)
        && counter == old(counter) && cues == old(cues)
      ensures confirmed ==>
        && settings == old(settings).(seenCards := Ids(cards))
        && storage == Some(ToRecord(settings))
        && flipped == IdSet(visibleCards)
        && counter == Some((|cards|, |cards|))
        && cues == old(cues) + [ButtonCue]
        && FlippedAreSeen()
    {
      if confirmed {
        cues := cues + [ButtonCue];
        settings := settings.(seenCards := Ids(cards));
        SaveSettings();
        flipped := flipped + IdSet(visibleCards);
        UpdateCardCounter();
        forall x | x in flipped ensures x in settings.seenCards {
          var c :| c in visibleCards && c.id == x;
          assert c in cards;
        }
      }
    }

    /**
     * `clearSeenCards`: once confirmed, the seen list is emptied and saved,
     * and the page reloads.
     */
    method ClearSeenCards(confirmed: bool)
      modifies this`settings, this`storage, this`cues, this`reloadRequested
      ensures !confirmed ==>
        settings == old(settings) && storage == old(storage) && cues == old(cues)
        && reloadRequested == old(reloadRequested)
      ensures confirmed ==>
        && settings == old(settings).(seenCards := [])
        && storage == Some(ToRecord(settings))
        && cues == old(cues) + [ButtonCue]
        && reloadRequested
    {
      if confirmed {
        cues := cues + [ButtonCue];
        settings := settings.(seenCards := []);
        SaveSettings();
        reloadRequested := true;
      }
    }

    /**
     * `openModal`: nothing happens without a modal; otherwise the settings
     * panel and any other modal are closed and `modal` becomes the active one.
     */
    method OpenModal(modal: Option<Modal>)
      modifies this`activeModal, this`settingsPanelOpen
      ensures modal.None? ==>
        activeModal == old(activeModal) && settingsPanelOpen == old(settingsPanelOpen)
      ensures modal.Some? ==> activeModal == modal && !settingsPanelOpen
      ensures old(AtMostOneOpen()) || modal.Some? ==> AtMostOneOpen()
    {
      if modal.None? {
        return;
      }
      settingsPanelOpen := false;
      activeModal := modal;
    }

    /**
     * `closeModal`: nothing happens when no modal is active. Otherwise the
     * button cue plays, closing the legal notice records (and saves) its
     * acceptance, and no modal is active afterwards.
     */
    method CloseModal()
      modifies this`activeModal, this`settings, this`storage, this`cues
      ensures old(activeModal).None? ==>
        activeModal.None? && settings == old(settings) && storage == old(storage) && cues == old(cues)
      ensures old(activeModal).Some? ==>
        && activeModal.None?
        && cues == old(cues) + [ButtonCue]
        && settings == AcceptOnClose(old(settings), old(activeModal).value)
      ensures storage ==
        if old(activeModal) == Some(Legal) && !old(settings.legalAccepted)
        then Some(ToRecord(settings)) else old(storage)
      ensures old(settings.legalAccepted) ==> settings.legalAccepted
      ensures AtMostOneOpen()
    {
      if activeModal.None? {
        return;
      }
      cues := cues + [ButtonCue];
      if activeModal == Some(Legal) && !settings.legalAccepted {
        settings := settings.(legalAccepted := true);
        SaveSettings();
      }
      activeModal := None;
    }

    /**
     * `openCardViewModal`: the roll cue plays and the index of `id` among the
     * visible cards is looked up; the detail view opens only when it is found.
     */
    method OpenCardViewModal(id: int)
      requires Valid()
      modifies this`cues, this`currentCardIndex, this`activeModal, this`settingsPanelOpen
      ensures Valid()
      ensures cues == old(cues) + [RollCue]
      ensures currentCardIndex == Index(FindIndex(visibleCards, id))
      ensures id !in IdSet(visibleCards) ==>
        currentCardIndex == Index(-1)
        && activeModal == old(activeModal) && settingsPanelOpen == old(settingsPanelOpen)
      ensures id in IdSet(visibleCards) ==>
        && 0 <= currentCardIndex.i < |visibleCards|
        && visibleCards[currentCardIndex.i].id == id
        && activeModal == Some(CardView) && !settingsPanelOpen
      ensures old(AtMostOneOpen()) ==> AtMostOneOpen()
    {
      cues := cues + [RollCue];
      FindIndexFindsMembers(visibleCards, id);
      var k := FindIndex(visibleCards, id);
      currentCardIndex := Index(k);
      if k == -1 {
        return;
      }
      OpenModal(Some(CardView));
    }

    /**
     * `navigateCard(direction)`: the roll cue plays and the index moves one
     * step around the visible cards, wrapping at both ends.
     */
    method NavigateCard(direction: int)
      requires Valid()
      requires direction == 1 || direction == -1
      modifies this`cues, this`currentCardIndex
      ensures Valid()
      ensures cues == old(cues) + [RollCue]
      ensures currentCardIndex == Navigate(old(currentCardIndex), direction, |visibleCards|)
      ensures |visibleCards| > 0 && old(currentCardIndex).Index? ==>
        currentCardIndex.Index? && 0 <= currentCardIndex.i < |visibleCards|
    {
      cues := cues + [RollCue];
      var n := |visibleCards|;
      if currentCardIndex.NotANumber? || n == 0 {
        currentCardIndex := NotANumber;
      } else {
        currentCardIndex := Index(Rem(currentCardIndex.i + direction + n, n));
      }
    }

    /**
     * The keydown handler. Escape closes the active modal, or else the
     * settings panel; the arrow keys move through the cards only while the
     * card-detail modal is (still) the active one.
     */
    method HandleKeydown(key: string)
      requires Valid()
      modifies this`activeModal, this`settings, this`storage, this`cues
      modifies this`settingsPanelOpen, this`currentCardIndex
      ensures Valid()
      ensures key == "Escape" && old(activeModal).Some? ==>
        && activeModal.None?
        && settingsPanelOpen == old(settingsPanelOpen)
        && settings == AcceptOnClose(old(settings), old(activeModal).value)
        && cues == old(cues) + [ButtonCue]
        && currentCardIndex == old(currentCardIndex)
      ensures key == "Escape" && old(activeModal).None? ==>
        && activeModal.None? && !settingsPanelOpen
        && settings == old(settings) && storage == old(storage)
        && cues == old(cues) && currentCardIndex == old(currentCardIndex)
      ensures key != "Escape" ==>
        && activeModal == old(activeModal) && settingsPanelOpen == old(settingsPanelOpen)
        && settings == old(settings) && storage == old(storage)
      ensures key != "Escape" && old(activeModal) == Some(CardView) && (key == "ArrowLeft" || key == "ArrowRight") ==>
        && currentCardIndex == Navigate(old(currentCardIndex), if key == "ArrowLeft" then -1 else 1, |visibleCards|)
        && cues == old(cues) + [RollCue]
      ensures key != "Escape" && (old(activeModal) != Some(CardView) || (key != "ArrowLeft" && key != "ArrowRight")) ==>
        currentCardIndex == old(currentCardIndex) && cues == old(cues)
      ensures storage ==
        if key == "Escape" && old(activeModal) == Some(Legal) && !old(settings.legalAccepted)
        then Some(ToRecord(settings)) else old(storage)
      ensures old(settings.legalAccepted) ==> settings.legalAccepted
      ensures key == "Escape" ==> AtMostOneOpen()
      ensures old(AtMostOneOpen()) ==> AtMostOneOpen()
    {
      if key == "Escape" {
        if activeModal.Some? {
          CloseModal();
        } else if settingsPanelOpen {
          settingsPanelOpen := false;
        }
      }
      if activeModal == Some(CardView) {
        if key == "ArrowLeft" {
          NavigateCard(-1);
        }
        if key == "ArrowRight" {
          NavigateCard(1);
        }
      }
    }

    /** The settings button: the button cue plays and the panel flips open or shut. */
    method ToggleSettingsPanel()
      modifies this`settingsPanelOpen, this`cues
      ensures settingsPanelOpen == !old(settingsPanelOpen)
      ensures cues == old(cues) + [ButtonCue]
    {
      cues := cues + [ButtonCue];
      settingsPanelOpen := !settingsPanelOpen;
    }

    /** A click anywhere on the page: one outside the panel and its button closes the panel. */
    method HandleDocumentClick(insidePanel: bool, onToggleButton: bool)
      modifies this`settingsPanelOpen
      ensures settingsPanelOpen <==> old(settingsPanelOpen) && (insidePanel || onToggleButton)
      ensures old(AtMostOneOpen()) ==> AtMostOneOpen()
    {
      if settingsPanelOpen && !insidePanel && !onToggleButton {
        settingsPanelOpen := false;
      }
    }

    /**
     * A mute checkbox changes: checking adds the sound name unless present,
     * unchecking drops every occurrence of it; the settings are then saved.
     */
    method HandleMuteToggle(sound: string, checked: bool)
      modifies this`settings, this`storage
      ensures settings == old(settings).(mutedSounds :=
        if checked then AddOnce(old(settings.mutedSounds), sound)
        else RemoveAll(old(settings.mutedSounds), sound))
      ensures checked <==> sound in settings.mutedSounds
      ensures forall other :: other != sound ==> (other in settings.mutedSounds <==> other in old(settings.mutedSounds))
      ensures storage == Some(ToRecord(settings))
    {
      if checked {
        if sound !in settings.mutedSounds {
          settings := settings.(mutedSounds := settings.mutedSounds + [sound]);
        }
      } else {
        settings := settings.(mutedSounds := RemoveAll(settings.mutedSounds, sound));
      }
      SaveSettings();
    }
  }

  /**
   * A visitor reveals one card of a deck, and the page is loaded again with
   * what was saved: the counter reads "1 / n" in both sessions, and the card
   * is shown flipped again after the reload.
   */
  method ProgressSurvivesReload(cards: seq<Card>, id: int) returns (before: (nat, nat), after: (nat, nat), stillFlipped: bool)
    requires UniqueIds(cards) && id in IdSet(cards)
    ensures before == (1, |cards|) && after == before
    ensures stillFlipped
  {
    var first := new Controller(cards);
    first.DisplayCards(cards);
    assert first.flipped == {};
    var delay := first.HandleCardClick(id);
    assert delay == FlipToDetailDelay;
    assert first.settings.seenCards == [id];
    assert first.counter == Some((1, |cards|));
    before := first.counter.value;

    var second := new Controller(cards);
    second.LoadSettings(Stored(first.storage.value));
    MergeOfSavedIsSaved(Defaults, first.settings);
    second.UpdateCardCounter();
    assert second.counter == Some((1, |cards|));
    after := second.counter.value;
    second.DisplayCards(cards);
    assert id in second.settings.seenCards;
    stillFlipped := id in second.flipped;
  }
}
