/** The administrator's settings screen
    (frontend/src/components/SettingsView.jsx): categories grouped under
    their parents, the top-level categories, and the payloads the two
    creation forms send. `Number(text)` is a parameter: None stands for
    NaN, which the request body carries as null. */
module SettingsView {
  import opened Common

  /** A procurement category as fetched; `parent` is the parent's id, None
      for a top-level category. */
  datatype Category = Category(id: int, name: string, parent: Option<int>)

  /** The categories under parent `pid`, in fetch order. */
  function Children(cats: seq<Category>, pid: int): (r: seq<Category>)
    ensures forall c :: c in r <==> c in cats && c.parent == Some(pid)
  {
    if cats == [] then []
    else
      var last := cats[|cats| - 1];
      assert cats == cats[..|cats| - 1] + [last];
      Children(cats[..|cats| - 1], pid) + (if last.parent == Some(pid) then [last] else [])
  }

  /** The ids that some category names as its parent. */
  function Parents(cats: seq<Category>): set<int>
  {
    set c | c in cats && c.parent.Some? :: c.parent.value
  }

  /** One more category adds itself to its parent's group and nothing
      else. */
  lemma ChildrenStep(cats: seq<Category>, i: nat, pid: int)
    requires i < |cats|
    ensures Children(cats[..i + 1], pid) == Children(cats[..i], pid) + (if cats[i].parent == Some(pid) then [cats[i]] else [])
    ensures Parents(cats[..i + 1]) == Parents(cats[..i]) + (if cats[i].parent.Some? then {cats[i].parent.value} else {})
  {
    assert cats[..i + 1][..i] == cats[..i];
    assert cats[..i + 1] == cats[..i] + [cats[i]];
  }

  /** `subcategoriesByParent`: each category with a parent is pushed, in
      fetch order, onto the list of its parent's id, the list created on
      first use. The keys are exactly the parents named, and each list holds
      exactly that parent's categories in fetch order. */
  method GroupByParent(cats: seq<Category>) returns (groups: map<int, seq<Category>>)
    ensures groups.Keys == Parents(cats)
    ensures forall pid :: pid in groups ==> groups[pid] == Children(cats, pid)
  {
    groups := map[];
    for i := 0 to |cats|
      invariant Grouped(groups, cats[..i])
    {
      var c := cats[i];
      if c.parent.Some? {
        var pid := c.parent.value;
        GroupPush(cats, i, groups, pid);
        var list := if pid in groups then groups[pid] else [];
        groups := groups[pid := list + [c]];
      } else {
        GroupSkip(cats, i, groups);
      }
    }
    assert cats[..|cats|] == cats;
  }

  /** The loop invariant of `GroupByParent`: `groups` groups `seen`. */
  ghost predicate Grouped(groups: map<int, seq<Category>>, seen: seq<Category>)
  {
    && groups.Keys == Parents(seen)
    && (forall pid :: pid in groups ==> groups[pid] == Children(seen, pid))
    && (forall pid :: pid !in groups ==> Children(seen, pid) == [])
  }

  /** A category without a parent leaves the grouping as it is. */
  lemma GroupSkip(cats: seq<Category>, i: nat, groups: map<int, seq<Category>>)
    requires i < |cats| && Grouped(groups, cats[..i]) && cats[i].parent.None?
    ensures Grouped(groups, cats[..i + 1])
  {
    SkipStep(cats, i);
  }

  /** A category without a parent changes neither the parents nor any
      parent's children. */
  lemma SkipStep(cats: seq<Category>, i: nat)
    requires i < |cats| && cats[i].parent.None?
    ensures Parents(cats[..i + 1]) == Parents(cats[..i])
    ensures forall q :: Children(cats[..i + 1], q) == Children(cats[..i], q)
  {
    ChildrenStep(cats, i, 0);
    forall q ensures Children(cats[..i + 1], q) == Children(cats[..i], q) {
      ChildrenStep(cats, i, q);
    }
  }

  /** Pushing a category onto its parent's list keeps the grouping. */
  lemma GroupPush(cats: seq<Category>, i: nat, groups: map<int, seq<Category>>, pid: int)
    requires i < |cats| && Grouped(groups, cats[..i]) && cats[i].parent == Some(pid)
    ensures Grouped(groups[pid := (if pid in groups then groups[pid] else []) + [cats[i]]], cats[..i + 1])
  {
    var after := groups[pid := (if pid in groups then groups[pid] else []) + [cats[i]]];
    ChildrenStep(cats, i, pid);
    assert after.Keys == Parents(cats[..i + 1]);
    forall q ensures q in after ==> after[q] == Children(cats[..i + 1], q)
                 ensures q !in after ==> Children(cats[..i + 1], q) == [] {
      GroupPushAt(cats, i, groups, pid, q);
    }
  }

  /** `GroupPush` for one parent id `q`. */
  lemma GroupPushAt(cats: seq<Category>, i: nat, groups: map<int, seq<Category>>, pid: int, q: int)
    requires i < |cats| && Grouped(groups, cats[..i]) && cats[i].parent == Some(pid)
    ensures var after := groups[pid := (if pid in groups then groups[pid] else []) + [cats[i]]];
            && (q in after ==> after[q] == Children(cats[..i + 1], q))
            && (q !in after ==> Children(cats[..i + 1], q) == [])
  {
    ChildrenStep(cats, i, q);
  }

  /** A parent that no category names has no children. */
  lemma NoChildrenOutsideParents(cats: seq<Category>, pid: int)
    ensures pid !in Parents(cats) ==> Children(cats, pid) == []
  {
    if Children(cats, pid) != [] {
      var c := Children(cats, pid)[0];
      assert c in cats && c.parent == Some(pid);
      assert pid in Parents(cats);
    }
  }

  /** `topLevelCategories`: exactly the categories without a parent, in
      fetch order. */
  function TopLevel(cats: seq<Category>): (r: seq<Category>)
    ensures forall c :: c in r <==> c in cats && c.parent.None?
    ensures IsSubsequence(r, cats)
  {
    FilterIsSubsequence(cats, (c: Category) => c.parent.None?);
    Filter(cats, (c: Category) => c.parent.None?)
  }

  /** Every fetched category is shown once: at the top level, or in its
      parent's group. */
  lemma EveryCategoryPlaced(cats: seq<Category>, c: Category)
    requires c in cats
    ensures c.parent.None? ==> c in TopLevel(cats)
    ensures c.parent.Some? ==> c.parent.value in Parents(cats) && c in Children(cats, c.parent.value) && c !in TopLevel(cats)
  {
  }

  /** `text || undefined`: an empty optional field is left out. */
  function Optional(text: string): (r: Option<string>)
    ensures r.None? <==> text == ""
    ensures r.Some? ==> r.value == text
  {
    if text == "" then None else Some(text)
  }

  /** `text ? Number(text) : null`. */
  function ParentId(text: string, toNumber: string -> Option<real>): (r: Option<real>)
    ensures text == "" ==> r.None?
    ensures text != "" ==> r == toNumber(text)
  {
    if text == "" then None else toNumber(text)
  }

  /** The category form. */
  datatype CategoryForm = CategoryForm(name: string, code: string, description: string, parentId: string)

  const BlankCategoryForm := CategoryForm("", "", "", "")

  datatype CategoryPayload = CategoryPayload(name: string, code: Option<string>, description: Option<string>, parentId: Option<real>)

  /** The category payload: the name as typed, code and description only
      when filled, the parent as a number or null. */
  function CategoryPayloadOf(f: CategoryForm, toNumber: string -> Option<real>): (p: CategoryPayload)
    ensures p.name == f.name
    ensures p.code.None? <==> f.code == ""
    ensures p.code.Some? ==> p.code.value == f.code
    ensures p.description.None? <==> f.description == ""
    ensures p.description.Some? ==> p.description.value == f.description
    ensures p.parentId.Some? ==> f.parentId != "" && toNumber(f.parentId) == p.parentId
  {
    CategoryPayload(f.name, Optional(f.code), Optional(f.description), ParentId(f.parentId, toNumber))
  }

  /** The procuring-entity form. */
  datatype EntityForm = EntityForm(
    name: string,
    code: string,
    entityType: string,
    parentEntityId: string,
    contactPerson: string,
    email: string,
    phone: string,
    city: string,
    province: string,
    addressLine1: string,
    addressLine2: string,
    budgetThreshold: string)

  const BlankEntityForm := EntityForm("", "", "", "", "", "", "", "", "", "", "", "")

  datatype EntityPayload = EntityPayload(
    name: string,
    code: Option<string>,
    entityType: Option<string>,
    parentEntityId: Option<real>,
    contactPerson: Option<string>,
    email: Option<string>,
    phone: Option<string>,
    city: Option<string>,
    province: Option<string>,
    addressLine1: Option<string>,
    addressLine2: Option<string>,
    budgetThreshold: Option<string>)

  /** The optional text fields of a form, in payload order. */
  function EntityTexts(f: EntityForm): seq<string>
  {
    [f.code, f.entityType, f.contactPerson, f.email, f.phone, f.city, f.province, f.addressLine1, f.addressLine2, f.budgetThreshold]
  }

  /** The same fields of a payload. */
  function PayloadTexts(p: EntityPayload): seq<Option<string>>
  {
    [p.code, p.entityType, p.contactPerson, p.email, p.phone, p.city, p.province, p.addressLine1, p.addressLine2, p.budgetThreshold]
  }

  /** `Optional` applied to each text in turn. */
  function Optionals(texts: seq<string>): (r: seq<Option<string>>)
    ensures |r| == |texts| && forall i :: 0 <= i < |texts| ==> r[i] == Optional(texts[i])
  {
    seq(|texts|, i requires 0 <= i < |texts| => Optional(texts[i]))
  }

  /** The entity payload: the name as typed, every optional text field
      only when filled and then as typed, the parent entity as a number or
      null. */
  function EntityPayloadOf(f: EntityForm, toNumber: string -> Option<real>): (p: EntityPayload)
    ensures p.name == f.name
    ensures PayloadTexts(p) == Optionals(EntityTexts(f))
    ensures p.parentEntityId.Some? ==> f.parentEntityId != "" && toNumber(f.parentEntityId) == p.parentEntityId
  {
    var o := Optionals(EntityTexts(f));
    var p := EntityPayload(f.name, o[0], o[1], ParentId(f.parentEntityId, toNumber), o[2], o[3], o[4], o[5], o[6], o[7], o[8], o[9]);
    assert PayloadTexts(p) == o;
    p
  }

  /** A blank form sends only an empty name: every optional field and the
      parent are left out. */
  lemma BlankFormsSendNothing(toNumber: string -> Option<real>)
    ensures CategoryPayloadOf(BlankCategoryForm, toNumber) == CategoryPayload("", None, None, None)
    ensures var p := EntityPayloadOf(BlankEntityForm, toNumber);
            p.name == "" && p.parentEntityId.None? && forall t :: t in PayloadTexts(p) ==> t.None?
  {
  }

  /** The field errors the server returned, by field name. */
  type ApiErrors = map<string, seq<string>>

  /** A create call: success, or a failure that may carry the server's
      field errors. */
  datatype CreateResult = Created | Failed(data: Option<ApiErrors>)

  const CategoryAdded := "Category added successfully!"
  const EntityAdded := "Procuring entity added successfully!"

  /** The two forms and the messages. */
  class SettingsScreen {
    var catForm: CategoryForm
    var entityForm: EntityForm
    var errors: ApiErrors
    var success: string

    constructor()
      ensures catForm == BlankCategoryForm && entityForm == BlankEntityForm && errors == map[] && success == ""
    {
      catForm := BlankCategoryForm;
      entityForm := BlankEntityForm;
      errors := map[];
      success := "";
    }

    /** `submitCategory`: sends the payload of the form; on success shows
        the message and blanks the form, on failure shows the server's field
        errors when it sent any and keeps the form. */
    method SubmitCategory(toNumber: string -> Option<real>, create: CreateResult) returns (sent: CategoryPayload)
      modifies this
      ensures sent == CategoryPayloadOf(old(catForm), toNumber)
      ensures create.Created? ==> success == CategoryAdded && catForm == BlankCategoryForm && errors == map[]
      ensures create.Failed? ==> success == "" && catForm == old(catForm)
      ensures create.Failed? ==> errors == create.data.GetOr(map[])
      ensures entityForm == old(entityForm)
    {
      errors := map[];
      success := "";
      sent := CategoryPayloadOf(catForm, toNumber);
      if create.Created? {
        success := CategoryAdded;
        catForm := BlankCategoryForm;
      } else if create.data.Some? {
        errors := create.data.value;
      }
    }

    /** `submitEntity`: the same for the procuring-entity form. */
    method SubmitEntity(toNumber: string -> Option<real>, create: CreateResult) returns (sent: EntityPayload)
      modifies this
      ensures sent == EntityPayloadOf(old(entityForm), toNumber)
      ensures create.Created? ==> success == EntityAdded && entityForm == BlankEntityForm && errors == map[]
      ensures create.Failed? ==> success == "" && entityForm == old(entityForm)
      ensures create.Failed? ==> errors == create.data.GetOr(map[])
      ensures catForm == old(catForm)
    {
      errors := map[];
      success := "";
      sent := EntityPayloadOf(entityForm, toNumber);
      if create.Created? {
        success := EntityAdded;
        entityForm := BlankEntityForm;
      } else if create.data.Some? {
        errors := create.data.value;
      }
    }
  }
}
