/** The chat composer (openrouter-chat/src/components/InputArea.jsx): the
    text being typed, the attached images, and the model picker with its
    search box. Sending hands the text and images to the chat view, which
    is modelled by returning them. */
module Composer {
  import opened Common
  import opened Text
  import opened ChatStore

  const NoModelLabel: string := "Select Model"
  const LoadingModelsLabel: string := "Loading Models..."
  const EnterKey: string := "Enter"

  /** What `onSend` receives. */
  datatype Outgoing = Outgoing(text: string, images: seq<string>)

  /** The send guard, also the Send button's `disabled`: nothing but white
      space and no image, or a reply still loading. */
  predicate SendBlocked(input: string, images: seq<string>, isLoading: bool) {
    (Trim(input) == [] && |images| == 0) || isLoading
  }

  /** Sending is held back exactly while loading or when there is neither
      a visible character nor an image. */
  lemma SendBlockedIff(input: string, images: seq<string>, isLoading: bool)
    ensures SendBlocked(input, images, isLoading) <==> isLoading || (AllWhitespace(input) && images == [])
  {
    TrimEmptyIffBlank(input);
  }

  // ---------------------------------------------------------------------
  // The model picker

  /** A model is listed when its name or its id contains the query,
      letter case aside. */
  predicate MatchesQuery(m: ModelInfo, query: string) {
    Contains(Lower(m.name), Lower(query)) || Contains(Lower(m.id), Lower(query))
  }

  /** `filteredModels`. */
  function FilteredModels(models: seq<ModelInfo>, query: string): (r: seq<ModelInfo>)
    ensures |r| <= |models|
  {
    Filter(models, (m: ModelInfo) => MatchesQuery(m, query))
  }

  /** Exactly the matching models are listed. */
  lemma FilteredModelsExact(models: seq<ModelInfo>, query: string)
    ensures forall m :: m in FilteredModels(models, query) <==> m in models && MatchesQuery(m, query)
  {
    FilterMembers(models, (m: ModelInfo) => MatchesQuery(m, query));
  }

  /** The listed models keep their order: filtering a list in two parts
      lists the first part's matches before the second's. */
  lemma FilteredModelsKeepOrder(first: seq<ModelInfo>, second: seq<ModelInfo>, query: string)
    ensures FilteredModels(first + second, query) == FilteredModels(first, query) + FilteredModels(second, query)
  {
    FilterAppend(first, second, (m: ModelInfo) => MatchesQuery(m, query));
  }

  /** An empty search lists every model. */
  lemma EmptyQueryListsAll(models: seq<ModelInfo>)
    ensures FilteredModels(models, "") == models
  {
    forall i | 0 <= i < |models| ensures MatchesQuery(models[i], "") {
      assert Lower("") == "";
      assert StartsWith(Lower(models[i].name), "");
    }
    FilterKeepsAll(models, (m: ModelInfo) => MatchesQuery(m, ""));
  }

  /** `models.find(m => m.id === id)`. */
  function FindModel(models: seq<ModelInfo>, id: string): (r: Option<ModelInfo>)
    ensures r.Some? ==> r.value in models && r.value.id == id
    ensures r.Some? ==> exists i :: 0 <= i < |models| && models[i] == r.value && forall k :: 0 <= k < i ==> models[k].id != id
    ensures r.None? ==> forall m :: m in models ==> m.id != id
  {
    if models == [] then None
    else if models[0].id == id then Some(models[0])
    else
      var r := FindModel(models[1..], id);
      assert forall k :: 1 <= k < |models| ==> models[k] == models[1..][k - 1];
      r
  }

  /** `currentModelName`: the active model's name, else its id, else
      "Select Model"; an empty name or id falls through to the next. */
  function CurrentModelName(models: seq<ModelInfo>, activeModel: string): (r: string)
    ensures |r| > 0
  {
    var found := FindModel(models, activeModel);
    if found.Some? && found.value.name != "" then found.value.name
    else if activeModel != "" then activeModel
    else NoModelLabel
  }

  /** The label names a listed model, shows the active id, or asks for a
      choice; it asks only when no model is active. */
  lemma CurrentModelNameCases(models: seq<ModelInfo>, activeModel: string)
    ensures var r := CurrentModelName(models, activeModel);
      || (exists m :: m in models && m.id == activeModel && m.name == r)
      || r == activeModel
      || (r == NoModelLabel && activeModel == "")
    ensures activeModel == "" && (forall m :: m in models ==> m.id != "")
      ==> CurrentModelName(models, activeModel) == NoModelLabel
    ensures (forall m :: m in models ==> m.id != activeModel) && activeModel != ""
      ==> CurrentModelName(models, activeModel) == activeModel
  {
  }

  /** The label of an active listed model is the name of the first model
      with its id (when that one has a name). */
  lemma CurrentModelNameOfListed(models: seq<ModelInfo>, i: nat)
    requires i < |models| && models[i].name != ""
    requires forall k :: 0 <= k < i ==> models[k].id != models[i].id
    ensures CurrentModelName(models, models[i].id) == models[i].name
  {
    var found := FindModel(models, models[i].id);
    var k :| 0 <= k < |models| && models[k] == found.value && forall j :: 0 <= j < k ==> models[j].id != models[i].id;
    assert !(k < i) && !(i < k);
  }

  /** The picker button: a loading notice while the list is being fetched,
      otherwise a listed model's name, the active id or the request to
      choose; the button is never blank. */
  function PickerLabel(isFetchingModels: bool, models: seq<ModelInfo>, activeModel: string): (r: string)
    ensures |r| > 0
    ensures isFetchingModels ==> r == LoadingModelsLabel
    ensures !isFetchingModels ==>
      || (exists m :: m in models && m.id == activeModel && m.name == r)
      || r == activeModel
      || (r == NoModelLabel && activeModel == "")
  {
    if isFetchingModels then LoadingModelsLabel
    else
      CurrentModelNameCases(models, activeModel);
      CurrentModelName(models, activeModel)
  }

  // ---------------------------------------------------------------------
  // The composer's state

  class InputArea {
    var input: string
    var images: seq<string>
    var showModelMenu: bool
    var searchQuery: string

    constructor()
      ensures input == "" && images == [] && !showModelMenu && searchQuery == ""
    {
      input, images, showModelMenu, searchQuery := "", [], false, "";
    }

    /** Typing into the text area. */
    method SetInput(text: string)
      modifies this`input
      ensures input == text && images == old(images)
    {
      input := text;
    }

    /** A file read finished: its data URL joins the attachments. */
    method AttachImage(dataUrl: string)
      modifies this`images
      ensures images == old(images) + [dataUrl] && input == old(input)
    {
      images := images + [dataUrl];
    }

    /** `handleSend`: when the guard lets it through, the text and images go
        out once, exactly as typed, and the composer is cleared; otherwise
        nothing happens. */
    method HandleSend(isLoading: bool) returns (sent: Option<Outgoing>)
      modifies this`input, this`images
      ensures sent.None? <==> SendBlocked(old(input), old(images), isLoading)
      ensures sent.Some? ==> sent.value == Outgoing(old(input), old(images)) && input == "" && images == []
      ensures sent.None? ==> input == old(input) && images == old(images)
      ensures showModelMenu == old(showModelMenu) && searchQuery == old(searchQuery)
    {
      if SendBlocked(input, images, isLoading) {
        return None;
      }
      sent := Some(Outgoing(input, images));
      input := "";
      images := [];
    }

    /** `handleKeyDown`: Enter sends, Shift+Enter does not (it types a new
        line, which the text area itself handles). */
    method HandleKeyDown(key: string, shiftKey: bool, isLoading: bool) returns (sent: Option<Outgoing>)
      modifies this`input, this`images
      ensures sent.Some? <==> key == EnterKey && !shiftKey && !SendBlocked(old(input), old(images), isLoading)
      ensures sent.Some? ==> sent.value == Outgoing(old(input), old(images)) && input == "" && images == []
      ensures sent.None? ==> input == old(input) && images == old(images)
    {
      sent := None;
      if key == EnterKey && !shiftKey {
        sent := HandleSend(isLoading);
      }
    }

    /** `removeImage(index)`: exactly that attachment goes. */
    method RemoveImage(index: int)
      modifies this`images
      ensures images == DropIndex(old(images), index)
      ensures 0 <= index < |old(images)| ==> images == old(images)[..index] + old(images)[index + 1..]
      ensures !(0 <= index < |old(images)|) ==> images == old(images)
      ensures input == old(input)
    {
      DropIndexSlices(images, index);
      images := DropIndex(images, index);
    }

    /** The picker button opens or closes the menu. */
    method ToggleModelMenu()
      modifies this`showModelMenu
      ensures showModelMenu == !old(showModelMenu)
      ensures input == old(input) && images == old(images) && searchQuery == old(searchQuery)
    {
      showModelMenu := !showModelMenu;
    }

    /** A mouse press outside the menu closes it. */
    method ClickOutside()
      modifies this`showModelMenu
      ensures !showModelMenu
      ensures input == old(input) && images == old(images) && searchQuery == old(searchQuery)
    {
      showModelMenu := false;
    }

    method SetSearchQuery(query: string)
      modifies this`searchQuery
      ensures searchQuery == query
      ensures input == old(input) && images == old(images) && showModelMenu == old(showModelMenu)
    {
      searchQuery := query;
    }

    /** Picking a model makes it the store's active model, closes the menu
        and clears the search. */
    method SelectModel(store: Store, model: ModelInfo)
      requires store.Valid()
      modifies this`showModelMenu, this`searchQuery, store`activeModel
      ensures store.Valid() && store.activeModel == model.id
      ensures store.chats == old(store.chats) && store.messages == old(store.messages)
      ensures !showModelMenu && searchQuery == ""
      ensures input == old(input) && images == old(images)
    {
      store.SetActiveModel(model.id);
      showModelMenu := false;
      searchQuery := "";
    }
  }
}
