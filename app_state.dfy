/**
 * The shared UI state of the root layout (`AppContext`): nine independent
 * values, each with a setter that replaces it. The live store is the state
 * held by `RootLayoutNav`; the default context is what a reader sees before
 * the provider is mounted, with setters that do nothing.
 */
module AppState {
  import opened Wrappers

  /** Display information of the selected group. */
  datatype GroupInfo = GroupInfo(name: string, members: int, color: string, image: string)

  /** One reading of the whole context. */
  datatype UiState = UiState(
    voiceInputVisible: bool,
    voiceText: string,
    voiceTags: seq<string>,
    voiceTagDescriptions: map<string, string>,
    restaurantSearchVisible: bool,
    modeSelectorVisible: bool,
    activeGroupId: Option<string>,
    activeGroupInfo: Option<GroupInfo>,
    appMode: string)

  /** The mode the application starts in. */
  const NormalMode: string := "normal"

  /** The initial value of every field: nothing shown, nothing selected, normal mode. */
  function Defaults(): UiState {
    UiState(false, "", [], map[], false, false, None, None, NormalMode)
  }

  /**
   * The convention callers are expected to keep: display information only for
   * a selected group. The store itself does not enforce it.
   */
  predicate GroupPaired(s: UiState) {
    s.activeGroupInfo.Some? ==> s.activeGroupId.Some?
  }

  /** The state held by the mounted root layout. */
  class Store {
    var voiceInputVisible: bool
    var voiceText: string
    var voiceTags: seq<string>
    var voiceTagDescriptions: map<string, string>
    var restaurantSearchVisible: bool
    var modeSelectorVisible: bool
    var activeGroupId: Option<string>
    var activeGroupInfo: Option<GroupInfo>
    var appMode: string

    /** What a reader of the context sees. */
    function Snapshot(): UiState
      reads this
    {
      UiState(voiceInputVisible, voiceText, voiceTags, voiceTagDescriptions,
              restaurantSearchVisible, modeSelectorVisible,
              activeGroupId, activeGroupInfo, appMode)
    }

    constructor ()
      ensures Snapshot() == Defaults()
    {
      voiceInputVisible := false;
      voiceText := "";
      voiceTags := [];
      voiceTagDescriptions := map[];
      restaurantSearchVisible := false;
      modeSelectorVisible := false;
      activeGroupId := None;
      activeGroupInfo := None;
      appMode := NormalMode;
    }

    method SetVoiceInputVisible(visible: bool)
      modifies this`voiceInputVisible
      ensures Snapshot() == old(Snapshot()).(voiceInputVisible := visible)
    {
      voiceInputVisible := visible;
    }

    method SetVoiceText(text: string)
      modifies this`voiceText
      ensures Snapshot() == old(Snapshot()).(voiceText := text)
    {
      voiceText := text;
    }

    method SetVoiceTags(tags: seq<string>)
      modifies this`voiceTags
      ensures Snapshot() == old(Snapshot()).(voiceTags := tags)
    {
      voiceTags := tags;
    }

    method SetVoiceTagDescriptions(descriptions: map<string, string>)
      modifies this`voiceTagDescriptions
      ensures Snapshot() == old(Snapshot()).(voiceTagDescriptions := descriptions)
    {
      voiceTagDescriptions := descriptions;
    }

    method SetRestaurantSearchVisible(visible: bool)
      modifies this`restaurantSearchVisible
      ensures Snapshot() == old(Snapshot()).(restaurantSearchVisible := visible)
    {
      restaurantSearchVisible := visible;
    }

    method SetModeSelectorVisible(visible: bool)
      modifies this`modeSelectorVisible
      ensures Snapshot() == old(Snapshot()).(modeSelectorVisible := visible)
    {
      modeSelectorVisible := visible;
    }

    /** Selects a group (or none); the group's display information is left as it was. */
    method SetActiveGroupId(groupId: Option<string>)
      modifies this`activeGroupId
      ensures Snapshot() == old(Snapshot()).(activeGroupId := groupId)
    {
      activeGroupId := groupId;
    }

    /** Sets the display information (or none); the selected group id is left as it was. */
    method SetActiveGroupInfo(info: Option<GroupInfo>)
      modifies this`activeGroupInfo
      ensures Snapshot() == old(Snapshot()).(activeGroupInfo := info)
    {
      activeGroupInfo := info;
    }

    method SetAppMode(mode: string)
      modifies this`appMode
      ensures Snapshot() == old(Snapshot()).(appMode := mode)
    {
      appMode := mode;
    }
  }

  /**
   * The context's default value: the same initial fields, and setters that
   * accept a value and ignore it.
   */
  class DefaultContext {
    var voiceInputVisible: bool
    var voiceText: string
    var voiceTags: seq<string>
    var voiceTagDescriptions: map<string, string>
    var restaurantSearchVisible: bool
    var modeSelectorVisible: bool
    var activeGroupId: Option<string>
    var activeGroupInfo: Option<GroupInfo>
    var appMode: string

    function Snapshot(): UiState
      reads this
    {
      UiState(voiceInputVisible, voiceText, voiceTags, voiceTagDescriptions,
              restaurantSearchVisible, modeSelectorVisible,
              activeGroupId, activeGroupInfo, appMode)
    }

    constructor ()
      ensures Snapshot() == Defaults()
    {
      voiceInputVisible := false;
      voiceText := "";
      voiceTags := [];
      voiceTagDescriptions := map[];
      restaurantSearchVisible := false;
      modeSelectorVisible := false;
      activeGroupId := None;
      activeGroupInfo := None;
      appMode := NormalMode;
    }

    method SetVoiceInputVisible(visible: bool)
      ensures Snapshot() == old(Snapshot())
    {
    }

    method SetVoiceText(text: string)
      ensures Snapshot() == old(Snapshot())
    {
    }

    method SetVoiceTags(tags: seq<string>)
      ensures Snapshot() == old(Snapshot())
    {
    }

    method SetVoiceTagDescriptions(descriptions: map<string, string>)
      ensures Snapshot() == old(Snapshot())
    {
    }

    method SetRestaurantSearchVisible(visible: bool)
      ensures Snapshot() == old(Snapshot())
    {
    }

    method SetModeSelectorVisible(visible: bool)
      ensures Snapshot() == old(Snapshot())
    {
    }

    method SetActiveGroupId(groupId: Option<string>)
      ensures Snapshot() == old(Snapshot())
    {
    }

    method SetActiveGroupInfo(info: Option<GroupInfo>)
      ensures Snapshot() == old(Snapshot())
    {
    }

    method SetAppMode(mode: string)
      ensures Snapshot() == old(Snapshot())
    {
    }
  }

  /** Setting the group information alone can break the pairing convention: nothing enforces it. */
  lemma PairingNotEnforced(info: GroupInfo)
    ensures GroupPaired(Defaults())
    ensures !GroupPaired(Defaults().(activeGroupInfo := Some(info)))
  {
  }

  /** Clearing the selected group while its information is still set breaks the pairing as well. */
  lemma ClearingIdAloneUnpairs(s: UiState)
    requires s.activeGroupInfo.Some?
    ensures !GroupPaired(s.(activeGroupId := None))
  {
  }

  /** Switching the mode from a fresh store changes the mode and nothing else. */
  method AppModeScenario() returns (before: UiState, after: UiState)
    ensures before == Defaults() && before.appMode == "normal"
    ensures after.appMode == "voice"
    ensures after == before.(appMode := "voice")
  {
    var store := new Store();
    before := store.Snapshot();
    store.SetAppMode("voice");
    after := store.Snapshot();
  }

  /** Selecting a group and then setting its information leaves both visible together. */
  method ActiveGroupScenario() returns (after: UiState)
    ensures after.activeGroupId == Some("g1")
    ensures after.activeGroupInfo == Some(GroupInfo("Sushi Club", 4, "#ff0000", "img1.png"))
    ensures GroupPaired(after)
    ensures after == Defaults().(activeGroupId := after.activeGroupId, activeGroupInfo := after.activeGroupInfo)
  {
    var store := new Store();
    store.SetActiveGroupId(Some("g1"));
    store.SetActiveGroupInfo(Some(GroupInfo("Sushi Club", 4, "#ff0000", "img1.png")));
    after := store.Snapshot();
  }

  /** Writes through the default context, before the provider is mounted, have no effect. */
  method EarlyWritesScenario(info: GroupInfo) returns (after: UiState)
    ensures after == Defaults()
  {
    var context := new DefaultContext();
    context.SetVoiceInputVisible(true);
    context.SetVoiceText("hello");
    context.SetVoiceTags(["tag"]);
    context.SetVoiceTagDescriptions(map["tag" := "description"]);
    context.SetRestaurantSearchVisible(true);
    context.SetModeSelectorVisible(true);
    context.SetActiveGroupId(Some("g1"));
    context.SetActiveGroupInfo(Some(info));
    context.SetAppMode("voice");
    after := context.Snapshot();
  }
}
