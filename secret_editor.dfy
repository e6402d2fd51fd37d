/** packages/dashboard/src/components/secretEditor.tsx: the editor of one key
    of a secret config. The editing state moves between Saved (value
    hidden, Update or Delete offered), SavedEditing (a replacement being
    typed) and UnSaved (a first value being typed); Save and Delete send an
    upsert of the secret config. */
module SecretEditor {
  import opened Wrappers

  datatype EditingSecretState = Saved | SavedEditing(value: string) | UnSaved(value: string)

  /** `EphemeralRequestStatus<Error>`. */
  datatype RequestStatus = NotStarted | InProgress | Successful | Failed(error: string)

  /** `SecretState` as a record value. */
  datatype SecretState = SecretState(showValue: bool, updateRequest: RequestStatus, editingState: EditingSecretState)

  /** `initialState`: hidden, no request yet, Saved when the secret exists
      on page load and an empty UnSaved value otherwise. */
  function InitialState(saved: bool): (r: SecretState)
    ensures !r.showValue && r.updateRequest == NotStarted
    ensures r.editingState.Saved? <==> saved
    ensures !saved ==> r.editingState == UnSaved("")
  {
    SecretState(false, NotStarted, if saved then Saved else UnSaved(""))
  }

  /** `disableSavedEditing`: back to Saved, keeping visibility and the
      request status. */
  function DisableSavedEditing(state: SecretState): (r: SecretState)
    ensures r.editingState == Saved
    ensures r.showValue == state.showValue && r.updateRequest == state.updateRequest
  {
    state.(editingState := Saved)
  }

  /** Cancelling twice is cancelling once, and a Saved state is already
      cancelled. */
  lemma DisableSavedEditingIdempotent(state: SecretState)
    ensures DisableSavedEditing(DisableSavedEditing(state)) == DisableSavedEditing(state)
    ensures state.editingState.Saved? ==> DisableSavedEditing(state) == state
  {
  }

  // ---------------------------------------------------------------------
  // Request payloads
  // ---------------------------------------------------------------------

  /** `UpsertSecretRequest`. */
  datatype UpsertSecretRequest = UpsertSecretRequest(workspaceId: string, name: string, configValue: map<string, string>)

  /** The request the editor sends from its current state: Delete in Saved
      (the key set to the empty string), Save otherwise (the typed value,
      with the secret's `type` only when the secret was unsaved). When the
      workspace is not loaded the editor renders nothing and sends nothing.
      The `type` entry is written first, so a key named "type" overrides
      it. */
  function RequestFor(editingState: EditingSecretState, workspaceId: Option<string>, name: string,
                      secretKey: string, secretType: string): (r: Option<UpsertSecretRequest>)
    ensures r.Some? <==> workspaceId.Some?
    ensures r.Some? ==> r.value.workspaceId == workspaceId.value && r.value.name == name
    ensures r.Some? ==> secretKey in r.value.configValue
                        && r.value.configValue[secretKey] == (if editingState.Saved? then "" else editingState.value)
    ensures r.Some? ==> r.value.configValue.Keys
                        == if editingState.UnSaved? then {"type", secretKey} else {secretKey}
    ensures r.Some? && editingState.UnSaved? && secretKey != "type" ==> r.value.configValue["type"] == secretType
  {
    match workspaceId
    case None => None
    case Some(id) =>
      var configValue := match editingState
        case Saved => map[secretKey := ""]
        case SavedEditing(value) => map[secretKey := value]
        case UnSaved(value) => map["type" := secretType][secretKey := value];
      Some(UpsertSecretRequest(id, name, configValue))
  }

  /** Only a first save names the secret's type. */
  lemma OnlyFirstSaveSendsType(editingState: EditingSecretState, workspaceId: string, name: string,
                               secretKey: string, secretType: string)
    requires secretKey != "type"
    ensures var r := RequestFor(editingState, Some(workspaceId), name, secretKey, secretType).value;
            "type" in r.configValue <==> editingState.UnSaved?
  {
  }

  // ---------------------------------------------------------------------
  // The editor's state and its draft updaters
  // ---------------------------------------------------------------------

  class SecretEditorState {
    var showValue: bool
    var updateRequest: RequestStatus
    var editingState: EditingSecretState

    function Snapshot(): SecretState
      reads this
    {
      SecretState(showValue, updateRequest, editingState)
    }

    /** `useImmer(() => initialState(saved))`. */
    constructor(saved: bool)
      ensures Snapshot() == InitialState(saved)
    {
      var s := InitialState(saved);
      showValue := s.showValue;
      updateRequest := s.updateRequest;
      editingState := s.editingState;
    }

    /** `toggleVisibility`: flips whether the value is shown. */
    method ToggleVisibility()
      modifies this
      ensures showValue == !old(showValue)
      ensures updateRequest == old(updateRequest) && editingState == old(editingState)
    {
      showValue := !showValue;
    }

    /** `setRequest`: records the request status and nothing else. */
    method SetRequest(request: RequestStatus)
      modifies this
      ensures updateRequest == request
      ensures showValue == old(showValue) && editingState == old(editingState)
    {
      updateRequest := request;
    }

    /** The Update button: start typing a replacement for a saved secret. */
    method Update()
      modifies this
      ensures editingState == SavedEditing("")
      ensures showValue == old(showValue) && updateRequest == old(updateRequest)
    {
      editingState := SavedEditing("");
    }

    /** The Cancel button applies `disableSavedEditing`. */
    method Cancel()
      modifies this
      ensures Snapshot() == DisableSavedEditing(old(Snapshot()))
    {
      var s := DisableSavedEditing(Snapshot());
      editingState := s.editingState;
    }

    /** A successful Save (from SavedEditing or UnSaved): the secret is
        saved. */
    method SaveSucceeded()
      modifies this
      ensures editingState == Saved
      ensures showValue == old(showValue) && updateRequest == old(updateRequest)
    {
      editingState := Saved;
    }

    /** A successful Delete (from Saved): the secret is unsaved and empty. */
    method DeleteSucceeded()
      modifies this
      ensures editingState == UnSaved("")
      ensures showValue == old(showValue) && updateRequest == old(updateRequest)
    {
      editingState := UnSaved("");
    }

    /** Typing in the replacement field: edits the value only in
        SavedEditing. */
    method OnSavedEditingChange(text: string)
      modifies this
      ensures old(editingState).SavedEditing? ==> editingState == SavedEditing(text)
      ensures !old(editingState).SavedEditing? ==> editingState == old(editingState)
      ensures showValue == old(showValue) && updateRequest == old(updateRequest)
    {
      if !editingState.SavedEditing? {
        return;
      }
      editingState := editingState.(value := text);
    }

    /** Typing in the first-value field: edits the value only in UnSaved. */
    method OnUnSavedChange(text: string)
      modifies this
      ensures old(editingState).UnSaved? ==> editingState == UnSaved(text)
      ensures !old(editingState).UnSaved? ==> editingState == old(editingState)
      ensures showValue == old(showValue) && updateRequest == old(updateRequest)
    {
      if !editingState.UnSaved? {
        return;
      }
      editingState := editingState.(value := text);
    }

    /** One press of the visibility button as written: the handler is bound
        to both `onMouseDown` and `onClick`, so it runs twice. */
    method PressVisibilityButtonAsWritten()
      modifies this
      ensures Snapshot() == old(Snapshot())
    {
      ToggleVisibility();
      ToggleVisibility();
    }

    /** One press of the visibility button toggling once. */
    method PressVisibilityButton()
      modifies this
      ensures showValue == !old(showValue)
      ensures updateRequest == old(updateRequest) && editingState == old(editingState)
    {
      ToggleVisibility();
    }
  }

  /** Type a first value and press the visibility button: as written the
      value stays hidden. */
  method RevealAsWritten() returns (shown: bool, typed: string)
    ensures !shown && typed == "hunter2"
  {
    var editor := new SecretEditorState(false);
    editor.OnUnSavedChange("hunter2");
    editor.PressVisibilityButtonAsWritten();
    shown := editor.showValue;
    typed := editor.editingState.value;
  }

  /** The same steps with a single toggle reveal the value. */
  method Reveal() returns (shown: bool, typed: string)
    ensures shown && typed == "hunter2"
  {
    var editor := new SecretEditorState(false);
    editor.OnUnSavedChange("hunter2");
    editor.PressVisibilityButton();
    shown := editor.showValue;
    typed := editor.editingState.value;
  }

  /** Update, type, save: the saved secret ends up Saved again, and the
      request sent carried the typed value without a type. */
  method ReplaceSavedSecret(workspaceId: string, name: string, secretKey: string, secretType: string, text: string)
    returns (sent: UpsertSecretRequest, finalState: EditingSecretState)
    ensures sent == UpsertSecretRequest(workspaceId, name, map[secretKey := text])
    ensures finalState == Saved
  {
    var editor := new SecretEditorState(true);
    editor.Update();
    editor.OnSavedEditingChange(text);
    sent := RequestFor(editor.editingState, Some(workspaceId), name, secretKey, secretType).value;
    editor.SaveSucceeded();
    finalState := editor.editingState;
  }
}
