/** The role-keyed draft store (src/services/storage.ts) over an injected
    key/value store standing for `localStorage`. A store call that throws
    (quota exceeded, storage unavailable) is a `storageThrows` parameter; the
    draft functions swallow it. */
module DraftStorage {
  import opened Js
  import opened EmployeeTypes

  const DraftAdminKey := "draft_admin"
  const DraftOpsKey := "draft_ops"

  /** `RoleType`: the two roles a wizard runs as. */
  datatype WizardRole = AdminRole | OpsRole
  {
    function Text(): string
    {
      if this == AdminRole then "admin" else "ops"
    }
  }

  /** `getDraftKey`. */
  function DraftKey(role: WizardRole): (key: string)
    ensures key == "draft_" + role.Text()
  {
    if role == AdminRole then DraftAdminKey else DraftOpsKey
  }

  lemma DraftKeysDistinct(a: WizardRole, b: WizardRole)
    ensures DraftKey(a) == DraftKey(b) <==> a == b
  {
    if a != b {
      assert DraftKey(a)[6] != DraftKey(b)[6];
    }
  }

  /** A stored value as `loadDraft` sees it: the serialised draft, the empty
      string, or text that `JSON.parse` rejects. */
  datatype Entry = Stored(draft: DraftData) | EmptyText | Unparsable

  /** The browser's key/value store. */
  class LocalStorage {
    var items: map<string, Entry>

    constructor (initial: map<string, Entry>)
      ensures items == initial
    {
      items := initial;
    }
  }

  /** What a load finds under the role's key when the store does not throw:
      nothing for a missing key, the empty string or unparsable text. */
  function Read(items: map<string, Entry>, role: WizardRole): Option<DraftData>
  {
    var key := DraftKey(role);
    if key in items && items[key].Stored? then Some(items[key].draft) else None
  }

  /** The store after `setItem` of the role's key. */
  function Written(items: map<string, Entry>, role: WizardRole, data: DraftData): map<string, Entry>
  {
    items[DraftKey(role) := Stored(data)]
  }

  /** The store after `removeItem` of the role's key. */
  function Removed(items: map<string, Entry>, role: WizardRole): map<string, Entry>
  {
    items - {DraftKey(role)}
  }

  /** `saveDraft`: a full overwrite of the role's entry; a throwing store is
      left as it was and nothing is raised. */
  method SaveDraft(store: LocalStorage, role: WizardRole, data: DraftData, storageThrows: bool)
    modifies store
    ensures store.items == if storageThrows then old(store.items) else Written(old(store.items), role, data)
  {
    if !storageThrows {
      store.items := store.items[DraftKey(role) := Stored(data)];
    }
  }

  /** `loadDraft`: a throwing store gives `null`. */
  method LoadDraft(store: LocalStorage, role: WizardRole, storageThrows: bool) returns (draft: Option<DraftData>)
    ensures storageThrows ==> draft == None
    ensures !storageThrows ==> draft == Read(store.items, role)
    ensures draft.Some? ==> DraftKey(role) in store.items && store.items[DraftKey(role)] == Stored(draft.value)
  {
    var key := DraftKey(role);
    if storageThrows {
      draft := None;
    } else if key in store.items {
      match store.items[key]
      case Stored(d) => draft := Some(d);
      case EmptyText => draft := None;
      case Unparsable => draft := None;
    } else {
      draft := None;
    }
  }

  /** `clearDraft`. */
  method ClearDraft(store: LocalStorage, role: WizardRole, storageThrows: bool)
    modifies store
    ensures store.items == if storageThrows then old(store.items) else Removed(old(store.items), role)
  {
    if !storageThrows {
      store.items := store.items - {DraftKey(role)};
    }
  }

  lemma SaveThenLoad(items: map<string, Entry>, role: WizardRole, data: DraftData)
    ensures Read(Written(items, role, data), role) == Some(data)
  {
  }

  /** A second save replaces the first outright: nothing of it is merged. */
  lemma SaveOverwrites(items: map<string, Entry>, role: WizardRole, first: DraftData, second: DraftData)
    ensures Written(Written(items, role, first), role, second) == Written(items, role, second)
  {
  }

  lemma ClearThenLoad(items: map<string, Entry>, role: WizardRole)
    ensures Read(Removed(items, role), role) == None
  {
  }

  /** Saving or clearing one role leaves every other key, and so the other
      role's draft, as it was. */
  lemma OtherKeysUntouched(items: map<string, Entry>, role: WizardRole, data: DraftData, key: string)
    requires key != DraftKey(role)
    ensures key in Written(items, role, data) <==> key in items
    ensures key in items ==> Written(items, role, data)[key] == items[key]
    ensures key in Removed(items, role) <==> key in items
    ensures key in items ==> Removed(items, role)[key] == items[key]
  {
  }

  lemma OtherRoleUntouched(items: map<string, Entry>, role: WizardRole, other: WizardRole, data: DraftData)
    requires other != role
    ensures Read(Written(items, role, data), other) == Read(items, other)
    ensures Read(Removed(items, role), other) == Read(items, other)
  {
    DraftKeysDistinct(role, other);
  }
}
