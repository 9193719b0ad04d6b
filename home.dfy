/** The home screen: three navigation cards whose titles and images the
    user may override, with the overrides saved as id-keyed maps under
    "@HomeCardImages" and "@HomeCardTitles". */
module Home {
  import opened Wrappers
  import opened JsText
  import opened Storage

  /** A navigation card; `screen` is the route it opens. */
  datatype Card = Card(id: string, title: string, screen: string, imageUri: string)

  /** The two overridable fields of a card. */
  datatype Field = Image | Title

  const PlaceholderImage: string := "https://via.placeholder.com/150"

  /** `initialNavigationCards` */
  const InitialCards: seq<Card> := [
    Card("1", "Funerária", "Funeraria", PlaceholderImage),
    Card("2", "Parque", "Parque", PlaceholderImage),
    Card("3", "Planos", "Planos", PlaceholderImage)
  ]

  function Get(card: Card, f: Field): string {
    match f
    case Image => card.imageUri
    case Title => card.title
  }

  function Set(card: Card, f: Field, value: string): (r: Card)
    ensures Get(r, f) == value
    ensures r.id == card.id && r.screen == card.screen
    ensures forall g :: g != f ==> Get(r, g) == Get(card, g)
  {
    match f
    case Image => card.(imageUri := value)
    case Title => card.(title := value)
  }

  /** `saved[id] || fallback`: a saved non-empty value wins; a missing or
      empty one keeps the fallback. */
  function Override(saved: map<string, string>, id: string, fallback: string): (r: string)
    ensures id in saved && saved[id] != [] ==> r == saved[id]
    ensures !(id in saved && saved[id] != []) ==> r == fallback
    ensures fallback != [] ==> r != []
  {
    if id in saved && saved[id] != [] then saved[id] else fallback
  }

  /** One `updatedCards.map(...)` step of `loadSavedData`. */
  function Merge(cards: seq<Card>, saved: map<string, string>, f: Field): seq<Card> {
    seq(|cards|, i requires 0 <= i < |cards| => Set(cards[i], f, Override(saved, cards[i].id, Get(cards[i], f))))
  }

  /** What a stored override map makes of a field whose default is
      `fallback`; nothing stored keeps the default. */
  function SavedOr(slot: Slot<map<string, string>>, id: string, fallback: string): string {
    if slot.Present? then Override(slot.value, id, fallback) else fallback
  }

  /** `loadSavedData` over the cards `base`: the cards after loading, or
      None when a stored text does not parse (the error is caught and
      logged and the cards stay as they are). */
  function LoadOnto(base: seq<Card>, images: Slot<map<string, string>>, titles: Slot<map<string, string>>): Option<seq<Card>> {
    if images.Corrupt? || titles.Corrupt? then None
    else
      var withImages := if images.Present? then Merge(base, images.value, Image) else base;
      Some(if titles.Present? then Merge(withImages, titles.value, Title) else withImages)
  }

  /** What the screen loads, starting from `initialNavigationCards`. */
  function LoadedCards(images: Slot<map<string, string>>, titles: Slot<map<string, string>>): Option<seq<Card>> {
    LoadOnto(InitialCards, images, titles)
  }

  /** Cards with the ids and screens of `base`, in its order. */
  predicate SameShape(cards: seq<Card>, base: seq<Card>) {
    |cards| == |base| &&
    forall i :: 0 <= i < |cards| ==> cards[i].id == base[i].id && cards[i].screen == base[i].screen
  }

  /** Loading fails exactly when a stored text does not parse. Otherwise it
      keeps the cards' ids and screens, and each image and title is the
      saved non-empty override for that id, or else the card's own. */
  lemma LoadOntoSpec(base: seq<Card>, images: Slot<map<string, string>>, titles: Slot<map<string, string>>)
    ensures LoadOnto(base, images, titles).None? <==> images.Corrupt? || titles.Corrupt?
    ensures LoadOnto(base, images, titles).Some? ==>
      var cards := LoadOnto(base, images, titles).value;
      SameShape(cards, base) &&
      forall i :: 0 <= i < |cards| ==>
        cards[i].imageUri == SavedOr(images, base[i].id, base[i].imageUri) &&
        cards[i].title == SavedOr(titles, base[i].id, base[i].title)
  {
  }

  /** The `reduce` of `saveImagesToStorage` and `saveTitlesToStorage`:
      `acc[card.id] = value`, card by card. */
  function IdMap(cards: seq<Card>, f: Field): map<string, string> {
    if cards == [] then map[]
    else
      var last := cards[|cards| - 1];
      IdMap(cards[..|cards| - 1], f)[last.id := Get(last, f)]
  }

  predicate DistinctIds(cards: seq<Card>) {
    forall p, q :: 0 <= p < q < |cards| ==> cards[p].id != cards[q].id
  }

  /** Saving maps every card's id to that card's image or title. */
  lemma {:induction false} IdMapOfDistinct(cards: seq<Card>, f: Field)
    requires DistinctIds(cards)
    ensures forall i :: 0 <= i < |cards| ==> cards[i].id in IdMap(cards, f) && IdMap(cards, f)[cards[i].id] == Get(cards[i], f)
  {
    if cards != [] {
      var n := |cards| - 1;
      IdMapOfDistinct(cards[..n], f);
      forall i | 0 <= i < n ensures cards[i].id in IdMap(cards, f) && IdMap(cards, f)[cards[i].id] == Get(cards[i], f) {
        assert cards[..n][i] == cards[i];
      }
    }
  }

  /** Merging a map saved from cards with the same ids puts back every
      non-empty saved value. */
  lemma MergeSaved(cards: seq<Card>, saved: seq<Card>, f: Field)
    requires SameShape(saved, cards) && DistinctIds(cards)
    ensures
      var merged := Merge(cards, IdMap(saved, f), f);
      SameShape(merged, cards) &&
      forall i :: 0 <= i < |merged| ==>
        Get(merged[i], f) == (if Get(saved[i], f) != [] then Get(saved[i], f) else Get(cards[i], f)) &&
        forall g :: g != f ==> Get(merged[i], g) == Get(cards[i], g)
  {
    IdMapOfDistinct(saved, f);
  }

  /** Round trip: loading what saving wrote for cards with the ids and
      screens of `base` restores every non-empty image and title; an empty
      one falls back to the base card's. */
  lemma SaveLoadRoundTrip(base: seq<Card>, cards: seq<Card>)
    requires DistinctIds(base) && SameShape(cards, base)
    ensures
      var loaded := LoadOnto(base, Present(IdMap(cards, Image)), Present(IdMap(cards, Title)));
      loaded.Some? && SameShape(loaded.value, base) &&
      forall i :: 0 <= i < |cards| ==>
        loaded.value[i].imageUri == (if cards[i].imageUri != [] then cards[i].imageUri else base[i].imageUri) &&
        loaded.value[i].title == (if cards[i].title != [] then cards[i].title else base[i].title)
  {
    var withImages := Merge(base, IdMap(cards, Image), Image);
    MergeSaved(base, cards, Image);
    MergeSaved(withImages, cards, Title);
  }

  /** Cards with no empty title or image. */
  predicate Filled(cards: seq<Card>) {
    forall i :: 0 <= i < |cards| ==> cards[i].title != [] && cards[i].imageUri != []
  }

  /** With no empty title or image, loading what was saved gives back
      exactly the saved cards. */
  lemma SaveLoadIdentity(base: seq<Card>, cards: seq<Card>)
    requires DistinctIds(base) && SameShape(cards, base) && Filled(cards)
    ensures LoadOnto(base, Present(IdMap(cards, Image)), Present(IdMap(cards, Title))) == Some(cards)
  {
    SaveLoadRoundTrip(base, cards);
    var loaded := LoadOnto(base, Present(IdMap(cards, Image)), Present(IdMap(cards, Title))).value;
    forall i | 0 <= i < |cards| ensures loaded[i] == cards[i] {
      assert loaded[i].id == base[i].id == cards[i].id;
      assert loaded[i].screen == base[i].screen == cards[i].screen;
    }
    assert loaded == cards;
  }

  /** Whatever was stored, loading onto filled cards yields filled cards
      of the same shape. */
  lemma LoadedFilled(base: seq<Card>, images: Slot<map<string, string>>, titles: Slot<map<string, string>>)
    requires Filled(base) && LoadOnto(base, images, titles).Some?
    ensures SameShape(LoadOnto(base, images, titles).value, base) && Filled(LoadOnto(base, images, titles).value)
  {
    LoadOntoSpec(base, images, titles);
  }

  /** The cards the screen can show: the initial ids and screens, and no
      empty title or image. */
  predicate ValidCards(cards: seq<Card>) {
    SameShape(cards, InitialCards) && Filled(cards)
  }

  /** The initial cards have distinct ids and no empty title or image. */
  lemma InitialCardsValid()
    ensures ValidCards(InitialCards) && DistinctIds(InitialCards)
  {
  }

  /** `cards.find((c) => c.id === cardId)` */
  function FindCard(cards: seq<Card>, id: string): (r: Option<Card>)
    ensures r.Some? ==> r.value in cards && r.value.id == id
    ensures r.Some? ==> exists k :: 0 <= k < |cards| && cards[k] == r.value && forall j :: 0 <= j < k ==> cards[j].id != id
    ensures r.None? <==> forall c :: c in cards ==> c.id != id
    ensures cards != [] && cards[0].id == id ==> r == Some(cards[0])
  {
    if cards == [] then None
    else if cards[0].id == id then Some(cards[0])
    else FindCard(cards[1..], id)
  }

  /** `cards.map((item) => item.id === id ? { ...item, title } : item)` */
  function Retitle(cards: seq<Card>, id: string, title: string): seq<Card> {
    seq(|cards|, i requires 0 <= i < |cards| => if cards[i].id == id then cards[i].(title := title) else cards[i])
  }

  /** Retitling with a non-empty title keeps the cards showable. */
  lemma RetitleValid(cards: seq<Card>, id: string, title: string)
    requires ValidCards(cards) && title != []
    ensures ValidCards(Retitle(cards, id, title))
    ensures forall i :: 0 <= i < |cards| && cards[i].id != id ==> Retitle(cards, id, title)[i] == cards[i]
  {
  }

  class HomeScreen {
    /** `cards` */
    var cards: seq<Card>
    /** `isModalVisible` */
    var isModalVisible: bool
    /** `selectedCardId`; None is `null` */
    var selectedCardId: Option<string>
    /** `newTitle` */
    var newTitle: string

    predicate Valid()
      reads this
    {
      ValidCards(cards)
    }

    constructor ()
      ensures Valid()
      ensures cards == InitialCards && !isModalVisible && selectedCardId == None && newTitle == []
    {
      cards := InitialCards;
      isModalVisible := false;
      selectedCardId := None;
      newTitle := [];
    }

    /** `!selectedCardId`: no card, or the empty id. */
    predicate NoSelection()
      reads this
    {
      selectedCardId.None? || selectedCardId.value == []
    }

    /** `loadSavedData` */
    method LoadSavedData(store: KeyValueStore)
      requires Valid()
      modifies this`cards
      ensures Valid()
      ensures LoadedCards(store.homeImages, store.homeTitles).Some? ==>
        cards == LoadedCards(store.homeImages, store.homeTitles).value
      ensures LoadedCards(store.homeImages, store.homeTitles).None? ==> cards == old(cards)
    {
      var loaded := LoadedCards(store.homeImages, store.homeTitles);
      if loaded.Some? {
        InitialCardsValid();
        LoadedFilled(InitialCards, store.homeImages, store.homeTitles);
        cards := loaded.value;
      }
    }

    /** `handleLongPress`: selects the card, pre-fills the input with its
        current title ("" when no card has that id) and opens the modal. */
    method HandleLongPress(cardId: string)
      modifies this`selectedCardId, this`newTitle, this`isModalVisible
      ensures selectedCardId == Some(cardId) && isModalVisible
      ensures (exists c :: c in cards && c.id == cardId) ==> newTitle == FindCard(cards, cardId).value.title
      ensures (forall c :: c in cards ==> c.id != cardId) ==> newTitle == []
    {
      var card := FindCard(cards, cardId);
      selectedCardId := Some(cardId);
      newTitle := if card.Some? then card.value.title else [];
      isModalVisible := true;
    }

    /** `handleTitleChange`: with no selection or a blank title it alerts
        and changes nothing. Otherwise the selected card's title becomes the
        trimmed text, every other card is kept, the titles are saved, and
        the modal, selection and input are reset. */
    method HandleTitleChange(store: KeyValueStore) returns (alerted: bool)
      requires Valid()
      modifies this, store`homeTitles
      ensures Valid()
      ensures alerted <==> old(NoSelection()) || IsBlank(old(newTitle))
      ensures alerted ==>
        cards == old(cards) && selectedCardId == old(selectedCardId) &&
        newTitle == old(newTitle) && isModalVisible == old(isModalVisible) &&
        store.homeTitles == old(store.homeTitles)
      ensures !alerted ==>
        cards == Retitle(old(cards), old(selectedCardId).value, Trim(old(newTitle))) &&
        store.homeTitles == Present(IdMap(cards, Title)) &&
        !isModalVisible && selectedCardId == None && newTitle == []
    {
      if NoSelection() || Trim(newTitle) == [] {
        return true;
      }
      var title := Trim(newTitle);
      RetitleValid(cards, selectedCardId.value, title);
      cards := Retitle(cards, selectedCardId.value, title);
      store.homeTitles := Present(IdMap(cards, Title));
      isModalVisible := false;
      selectedCardId := None;
      newTitle := [];
      return false;
    }
  }
}
