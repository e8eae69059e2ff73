/** The categories page: the add/edit dialog's state, the save rule that picks
    between adding and updating, and the delete confirmation. */
module Categories {
  import opened Records

  const EmojiOptions: seq<string> := [
    "\U{1F354}", "\U{2708}\U{FE0F}", "\U{1F6CD}\U{FE0F}", "\U{1F4C4}", "\U{1F3E5}",
    "\U{1F3E0}", "\U{1F4E6}", "\U{1F3AE}", "\U{1F3AC}", "\U{1F48A}",
    "\U{1F697}", "\U{1F4DA}", "\U{1F4B0}", "\U{1F381}", "\U{1F3CB}\U{FE0F}"]

  const ColorOptions: seq<string> := [
    "#EF4444", "#3B82F6", "#8B5CF6", "#F59E0B", "#10B981",
    "#6366F1", "#EC4899", "#14B8A6", "#F97316"]

  /** The package icon and the blue the dialog starts with. */
  const DefaultIcon := "\U{1F4E6}"
  const DefaultColor := "#3B82F6"

  /** A fresh dialog starts on one of the icon buttons and one of the colour
      swatches. */
  lemma DefaultsAreOptions()
    ensures DefaultIcon == EmojiOptions[6] && DefaultColor == ColorOptions[1]
  {
  }

  /** The characters `String.prototype.trim` removes: the white space and line
      terminators of ECMAScript. */
  predicate IsJsSpace(c: char) {
    || c == '\U{9}' || c == '\U{A}' || c == '\U{B}' || c == '\U{C}' || c == '\U{D}'
    || c == '\U{20}' || c == '\U{A0}' || c == '\U{1680}' || ('\U{2000}' <= c <= '\U{200A}')
    || c == '\U{2028}' || c == '\U{2029}' || c == '\U{202F}' || c == '\U{205F}'
    || c == '\U{3000}' || c == '\U{FEFF}'
  }

  /** The string without its leading white space. */
  function TrimStart(s: string): (r: string)
    ensures |r| <= |s| && r == s[|s| - |r|..]
    ensures r == [] || !IsJsSpace(r[0])
    ensures forall i :: 0 <= i < |s| - |r| ==> IsJsSpace(s[i])
  {
    if s == [] || !IsJsSpace(s[0]) then s
    else
      var r := TrimStart(s[1..]);
      assert forall i :: 1 <= i < |s| ==> s[i] == s[1..][i - 1];
      r
  }

  /** The string without its trailing white space. */
  function TrimEnd(s: string): (r: string)
    ensures |r| <= |s| && r == s[..|r|]
    ensures r == [] || !IsJsSpace(r[|r| - 1])
    ensures forall i :: |r| <= i < |s| ==> IsJsSpace(s[i])
  {
    if s == [] || !IsJsSpace(s[|s| - 1]) then s
    else
      var r := TrimEnd(s[..|s| - 1]);
      assert forall i :: 0 <= i < |s| - 1 ==> s[i] == s[..|s| - 1][i];
      r
  }

  /** `s.trim()` */
  function Trim(s: string): string { TrimEnd(TrimStart(s)) }

  /** `!name.trim()`: the name is blank exactly when it is all white space. */
  lemma BlankIff(s: string)
    ensures Trim(s) == "" <==> forall i :: 0 <= i < |s| ==> IsJsSpace(s[i])
  {
    var t := TrimStart(s);
    assert t != [] ==> s[|s| - |t|] == t[0] && !IsJsSpace(s[|s| - |t|]);
    assert Trim(s) == "" <==> t == [];
  }

  /** Trimming keeps every character that is not white space, so a name with
      one is never blank. */
  lemma TrimKeepsContent(s: string, i: nat)
    requires i < |s| && !IsJsSpace(s[i])
    ensures s[i] in Trim(s)
    ensures Trim(s) != ""
  {
    var t := TrimStart(s);
    var k := |s| - |t|;
    var r := Trim(s);
    assert i >= k;
    assert t[i - k] == s[i];
    assert i - k < |r|;
    assert r[i - k] == s[i];
  }

  /** A request for the categories table. */
  datatype Mutation =
    | NoMutation
    | Add(name: string, icon: string, color: string)
    | Update(id: string, name: string, icon: string, color: string)
    | Delete(id: string)

  /** A nullable id as a JavaScript condition: null and '' are false. */
  predicate Truthy(id: Option<string>) { id.Some? && id.value != "" }

  /** The request `handleSave` sends: none for a blank name, an update of the
      category being edited, otherwise a new category with the dialog's values. */
  function SaveMutation(editId: Option<string>, name: string, icon: string, color: string): (m: Mutation)
    ensures m.NoMutation? <==> forall i :: 0 <= i < |name| ==> IsJsSpace(name[i])
    ensures m.Update? <==> !m.NoMutation? && Truthy(editId)
    ensures m.Update? ==> m == Update(editId.value, name, icon, color)
    ensures !m.NoMutation? && !m.Update? ==> m == Add(name, icon, color)
  {
    BlankIff(name);
    if Trim(name) == "" then NoMutation
    else if Truthy(editId) then Update(editId.value, name, icon, color)
    else Add(name, icon, color)
  }

  /** The request `handleDelete` sends: none unless a deletion is pending. */
  function DeleteMutation(deleteId: Option<string>): (m: Mutation)
    ensures m.NoMutation? <==> !Truthy(deleteId)
    ensures m.Delete? ==> deleteId == Some(m.id)
  {
    if Truthy(deleteId) then Delete(deleteId.value) else NoMutation
  }

  /** The page's state. The `on...` arguments of the handlers say whether the
      backend reported success, which is when the `onSuccess` callbacks run. */
  class CategoriesPage {
    var modalOpen: bool
    var editId: Option<string>
    var name: string
    var icon: string
    var color: string
    var deleteId: Option<string>

    constructor()
      ensures !modalOpen && editId == None && name == ""
      ensures icon == DefaultIcon && color == DefaultColor && deleteId == None
    {
      modalOpen, editId, name := false, None, "";
      icon, color, deleteId := DefaultIcon, DefaultColor, None;
    }

    /** The first word of the dialog's title: `editId ? 'Edit' : 'Add'`. */
    function Heading(): (h: string)
      reads this
      ensures h == "Edit" || h == "Add"
    {
      if Truthy(editId) then "Edit" else "Add"
    }

    /** `openAdd` */
    method OpenAdd()
      modifies this
      ensures modalOpen && editId == None && name == ""
      ensures icon == DefaultIcon && color == DefaultColor && deleteId == old(deleteId)
      ensures Heading() == "Add"
    {
      editId, name, icon, color, modalOpen := None, "", DefaultIcon, DefaultColor, true;
    }

    /** `openEdit(cat)` */
    method OpenEdit(cat: Category)
      modifies this
      ensures modalOpen && editId == Some(cat.id) && name == cat.name
      ensures icon == cat.icon && color == cat.color && deleteId == old(deleteId)
      ensures Heading() == (if cat.id != "" then "Edit" else "Add")
    {
      editId, name, icon, color, modalOpen := Some(cat.id), cat.name, cat.icon, cat.color, true;
    }

    /** The name input's `onChange`. */
    method SetName(value: string)
      modifies this
      ensures name == value
      ensures modalOpen == old(modalOpen) && editId == old(editId) && icon == old(icon)
      ensures color == old(color) && deleteId == old(deleteId)
    {
      name := value;
    }

    /** A click on the i-th icon button. */
    method PickIcon(i: nat)
      requires i < |EmojiOptions|
      modifies this
      ensures icon == EmojiOptions[i]
      ensures modalOpen == old(modalOpen) && editId == old(editId) && name == old(name)
      ensures color == old(color) && deleteId == old(deleteId)
    {
      icon := EmojiOptions[i];
    }

    /** A click on the i-th colour swatch. */
    method PickColor(i: nat)
      requires i < |ColorOptions|
      modifies this
      ensures color == ColorOptions[i]
      ensures modalOpen == old(modalOpen) && editId == old(editId) && name == old(name)
      ensures icon == old(icon) && deleteId == old(deleteId)
    {
      color := ColorOptions[i];
    }

    /** The backdrop or the close button of the dialog. */
    method CloseModal()
      modifies this
      ensures !modalOpen
      ensures editId == old(editId) && name == old(name) && icon == old(icon)
      ensures color == old(color) && deleteId == old(deleteId)
    {
      modalOpen := false;
    }

    /** The trash button of a category card. */
    method AskDelete(id: string)
      modifies this
      ensures deleteId == Some(id)
      ensures modalOpen == old(modalOpen) && editId == old(editId) && name == old(name)
      ensures icon == old(icon) && color == old(color)
    {
      deleteId := Some(id);
    }

    /** Cancel, or the backdrop, of the delete confirmation. */
    method CancelDelete()
      modifies this
      ensures deleteId == None
      ensures modalOpen == old(modalOpen) && editId == old(editId) && name == old(name)
      ensures icon == old(icon) && color == old(color)
    {
      deleteId := None;
    }

    /** `handleSave`: a blank name is refused with a toast and nothing else
        happens; otherwise the request is sent, and the dialog closes once the
        backend reports success. */
    method HandleSave(onSuccess: bool) returns (m: Mutation, toast: string)
      modifies this
      ensures m == SaveMutation(old(editId), old(name), old(icon), old(color))
      ensures m.Update? <==> !m.NoMutation? && old(Heading()) == "Edit"
      ensures modalOpen == (old(modalOpen) && (m.NoMutation? || !onSuccess))
      ensures toast == (if m.NoMutation? then "Enter a category name"
                        else if !onSuccess then ""
                        else if m.Update? then "Updated" else "Category added")
      ensures editId == old(editId) && name == old(name) && icon == old(icon)
      ensures color == old(color) && deleteId == old(deleteId)
    {
      m := SaveMutation(editId, name, icon, color);
      if m.NoMutation? {
        toast := "Enter a category name";
      } else if !onSuccess {
        toast := "";
      } else {
        toast := if m.Update? then "Updated" else "Category added";
        modalOpen := false;
      }
    }

    /** `handleDelete`: without a pending deletion nothing happens; otherwise
        the request is sent, and the confirmation closes once the backend
        reports success. */
    method HandleDelete(onSuccess: bool) returns (m: Mutation, toast: string)
      modifies this
      ensures m == DeleteMutation(old(deleteId))
      ensures deleteId == (if m.Delete? && onSuccess then None else old(deleteId))
      ensures toast == (if m.Delete? && onSuccess then "Deleted" else "")
      ensures modalOpen == old(modalOpen) && editId == old(editId) && name == old(name)
      ensures icon == old(icon) && color == old(color)
    {
      m := DeleteMutation(deleteId);
      toast := "";
      if m.Delete? && onSuccess {
        toast := "Deleted";
        deleteId := None;
      }
    }
  }
}
