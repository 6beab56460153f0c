/**
 * The persisted settings record of the card album: its default value, the
 * shallow merge that `loadSettings` performs over it with whatever record was
 * stored by an earlier session, and the card-back choice that reads it.
 */
module SettingsStore {
  import opened Wrappers

  /**
   * The `settings` object. `masterVolume` is kept as an opaque stored value;
   * `mutedSounds` and `seenCards` are the script's arrays.
   */
  datatype Settings = Settings(
    themeColor: string,
    cardBack: string,
    auraEffect: string,
    masterVolume: real,
    mutedSounds: seq<string>,
    seenCards: seq<int>,
    legalAccepted: bool)

  /** The value `settings` holds before anything is loaded. */
  const Defaults: Settings :=
    Settings("#dcbaff", "default", "alfa", 0.7, [], [], false)

  /**
   * A record as found in local storage: an older session may have written a
   * record that lacks some of today's fields.
   */
  datatype StoredRecord = StoredRecord(
    themeColor: Option<string>,
    cardBack: Option<string>,
    auraEffect: Option<string>,
    masterVolume: Option<real>,
    mutedSounds: Option<seq<string>>,
    seenCards: Option<seq<int>>,
    legalAccepted: Option<bool>)

  /** What reading the storage key yields at start-up. */
  datatype StorageRead =
    | NothingStored            // no record, or the empty string
    | Unreadable               // storage disabled, or the record is not valid JSON
    | Stored(record: StoredRecord)

  /** A record with no fields at all. */
  const EmptyRecord: StoredRecord :=
    StoredRecord(None, None, None, None, None, None, None)

  /** The record `saveSettings` writes: every field of the settings. */
  function ToRecord(s: Settings): (r: StoredRecord)
    ensures r.themeColor == Some(s.themeColor) && r.cardBack == Some(s.cardBack)
    ensures r.auraEffect == Some(s.auraEffect) && r.masterVolume == Some(s.masterVolume)
    ensures r.mutedSounds == Some(s.mutedSounds) && r.seenCards == Some(s.seenCards)
    ensures r.legalAccepted == Some(s.legalAccepted)
  {
    StoredRecord(Some(s.themeColor), Some(s.cardBack), Some(s.auraEffect),
                 Some(s.masterVolume), Some(s.mutedSounds), Some(s.seenCards),
                 Some(s.legalAccepted))
  }

  /** `Object.assign(base, stored)`: each field the stored record has wins, the others stay. */
  function Merge(base: Settings, stored: StoredRecord): (r: Settings)
    ensures stored.themeColor.Some? ==> r.themeColor == stored.themeColor.value
    ensures stored.themeColor.None? ==> r.themeColor == base.themeColor
    ensures stored.cardBack.Some? ==> r.cardBack == stored.cardBack.value
    ensures stored.cardBack.None? ==> r.cardBack == base.cardBack
    ensures stored.auraEffect.Some? ==> r.auraEffect == stored.auraEffect.value
    ensures stored.auraEffect.None? ==> r.auraEffect == base.auraEffect
    ensures stored.masterVolume.Some? ==> r.masterVolume == stored.masterVolume.value
    ensures stored.masterVolume.None? ==> r.masterVolume == base.masterVolume
    ensures stored.mutedSounds.Some? ==> r.mutedSounds == stored.mutedSounds.value
    ensures stored.mutedSounds.None? ==> r.mutedSounds == base.mutedSounds
    ensures stored.seenCards.Some? ==> r.seenCards == stored.seenCards.value
    ensures stored.seenCards.None? ==> r.seenCards == base.seenCards
    ensures stored.legalAccepted.Some? ==> r.legalAccepted == stored.legalAccepted.value
    ensures stored.legalAccepted.None? ==> r.legalAccepted == base.legalAccepted
  {
    Settings(
      Pick(stored.themeColor, base.themeColor),
      Pick(stored.cardBack, base.cardBack),
      Pick(stored.auraEffect, base.auraEffect),
      Pick(stored.masterVolume, base.masterVolume),
      Pick(stored.mutedSounds, base.mutedSounds),
      Pick(stored.seenCards, base.seenCards),
      Pick(stored.legalAccepted, base.legalAccepted))
  }

  /** One field of the merge: the stored value when there is one. */
  function Pick<T>(stored: Option<T>, base: T): T {
    match stored
    case Some(v) => v
    case None => base
  }

  /** Loading what was saved gives back exactly the saved settings, whatever the base. */
  lemma MergeOfSavedIsSaved(base: Settings, s: Settings)
    ensures Merge(base, ToRecord(s)) == s
  {
  }

  /** A record with no fields leaves the base untouched. */
  lemma MergeOfEmptyIsBase(base: Settings)
    ensures Merge(base, EmptyRecord) == base
  {
  }

  /** Merging the same record twice is merging it once. */
  lemma MergeIdempotent(base: Settings, stored: StoredRecord)
    ensures Merge(Merge(base, stored), stored) == Merge(base, stored)
  {
  }

  /**
   * A record written by an older session that lacks the `legalAccepted`
   * field loads with the default `false`, and keeps every field it has.
   */
  lemma OldRecordGetsDefaultLegalAccepted(stored: StoredRecord)
    requires stored.legalAccepted.None?
    ensures !Merge(Defaults, stored).legalAccepted
    ensures stored.seenCards.Some? ==> Merge(Defaults, stored).seenCards == stored.seenCards.value
  {
  }

  /** The three built-in card backs, in the order the gallery cycles through them. */
  const DefaultBacks: seq<string> := [
    "assets/card_back/card_back.webp",
    "assets/card_back/card_back2.webp",
    "assets/card_back/card_back3.webp"]

  /**
   * `getCardBackUrl(index)`: with the "default" skin the card at position
   * `index` gets built-in back `index % 3`; otherwise every card shows the
   * user's chosen image.
   */
  function CardBackUrl(cardBack: string, index: nat): (r: string)
    ensures cardBack == "default" ==> r in DefaultBacks && r == DefaultBacks[index % |DefaultBacks|]
    ensures cardBack != "default" ==> r == cardBack
  {
    if cardBack == "default" then DefaultBacks[index % |DefaultBacks|] else cardBack
  }

  /** The backs repeat with period three. */
  lemma CardBackPeriodic(cardBack: string, index: nat)
    ensures CardBackUrl(cardBack, index + 3) == CardBackUrl(cardBack, index)
  {
  }

  /** With the default skin, neighbouring cards never share a back. */
  lemma NeighbouringDefaultBacksDiffer(index: nat)
    ensures CardBackUrl("default", index) != CardBackUrl("default", index + 1)
  {
  }
}
