/**
 * The request the admin form CreateRoleOrGroupForm issues on submit, and its title.
 *
 * For a group, the form needs a non-empty identifier and label; the new group goes
 * under the first selected node, or the context node when nothing is selected, at
 * that node's path with the first "/idm/users" removed ("/" when nothing is left).
 * For a role, it builds an IdmRole whose Uuid is a freshly generated identifier and
 * whose Label is the text typed in, and stores it under that same Uuid. For any
 * other form type nothing is sent.
 */
module RoleGroupForm {
  import opened Wrappers

  /**
   * The form's `type` property. Its declared values are 'group', 'user' and
   * 'role', but that declaration only warns: User stands for 'user' and for
   * every other value, a missing one included, since submit and getTitle treat
   * them all alike.
   */
  datatype FormType = Group | User | Role

  /** A node of the admin tree, by the path getPath() returns. */
  datatype Node = Node(path: string)

  /** The role record sent to setRole. */
  datatype IdmRole = IdmRole(Uuid: string, Label: string)

  /** The REST call submit makes: createGroup(path, id, label), then a reload of `parent`; or setRole(uuid, role). */
  datatype Request =
    | NoRequest
    | CreateGroup(parent: Node, groupPath: string, groupId: string, groupLabel: string)
    | SetRole(roleUuid: string, role: IdmRole)

  const GroupTitle := "ajxp_admin.user.15"
  const OtherTitle := "ajxp_admin.user.14"
  const UsersPrefix := "/idm/users"

  /** The message key of the dialog title (getTitle): one for groups, one for every other type. */
  function TitleKey(t: FormType): (key: string)
    ensures key == GroupTitle <==> t == Group
    ensures key == OtherTitle <==> t != Group
  {
    if t == Group then GroupTitle else OtherTitle
  }

  /** `pat` occurs in `s` starting at index `i`. */
  predicate OccursAt(s: string, pat: string, i: nat)
  {
    i + |pat| <= |s| && s[i..i + |pat|] == pat
  }

  /** The first index at or after `from` where `pat` occurs in `s`, if any. */
  function FindFrom(s: string, pat: string, from: nat): (r: Option<nat>)
    requires from <= |s|
    ensures r.Some? ==> from <= r.value && OccursAt(s, pat, r.value)
    ensures r.Some? ==> forall j :: from <= j < r.value ==> !OccursAt(s, pat, j)
    ensures r.None? ==> forall j :: from <= j <= |s| ==> !OccursAt(s, pat, j)
    decreases |s| - from
  {
    if OccursAt(s, pat, from) then Some(from)
    else if from == |s| then None
    else FindFrom(s, pat, from + 1)
  }

  /** String.prototype.indexOf for a string pattern. */
  function IndexOf(s: string, pat: string): (r: Option<nat>)
    ensures r.Some? ==> OccursAt(s, pat, r.value) && forall j :: 0 <= j < r.value ==> !OccursAt(s, pat, j)
    ensures r.None? ==> forall j :: 0 <= j <= |s| ==> !OccursAt(s, pat, j)
  {
    FindFrom(s, pat, 0)
  }

  /**
   * String.prototype.replace with a string pattern and the empty replacement:
   * the first occurrence of `pat` is removed, and only that one.
   */
  function RemoveFirst(s: string, pat: string): (r: string)
    ensures IndexOf(s, pat).None? ==> r == s
    ensures IndexOf(s, pat).Some? ==> |r| == |s| - |pat|
  {
    match IndexOf(s, pat)
    case None => s
    case Some(i) => s[..i] + s[i + |pat|..]
  }

  /** Putting the removed occurrence back at the index where it was found gives the original string. */
  lemma RemoveFirstUndone(s: string, pat: string)
    requires IndexOf(s, pat).Some?
    ensures var i := IndexOf(s, pat).value;
            i <= |RemoveFirst(s, pat)| &&
            RemoveFirst(s, pat)[..i] + pat + RemoveFirst(s, pat)[i..] == s
  {
    var i := IndexOf(s, pat).value;
    var r := RemoveFirst(s, pat);
    assert r[..i] == s[..i];
    assert r[i..] == s[i + |pat|..];
    assert s == s[..i] + s[i..i + |pat|] + s[i + |pat|..];
  }

  /** The group path: the node's path without its first "/idm/users", or "/" when that leaves nothing. */
  function GroupPath(nodePath: string): (r: string)
    ensures r != ""
  {
    var stripped := RemoveFirst(nodePath, UsersPrefix);
    if stripped == "" then "/" else stripped
  }

  /** A path under the users root loses that root: "/idm/users" + rest becomes rest, or "/". */
  lemma GroupPathUnderUsers(rest: string)
    ensures GroupPath(UsersPrefix + rest) == if rest == "" then "/" else rest
  {
    var s := UsersPrefix + rest;
    assert OccursAt(s, UsersPrefix, 0) by { assert s[0..|UsersPrefix|] == UsersPrefix; }
    assert RemoveFirst(s, UsersPrefix) == s[|UsersPrefix|..];
    assert s[|UsersPrefix|..] == rest;
  }

  /** Only the first occurrence is removed: "/idm/users/idm/users" becomes "/idm/users". */
  lemma GroupPathRemovesOnlyFirst()
    ensures GroupPath(UsersPrefix + UsersPrefix) == UsersPrefix
  {
    GroupPathUnderUsers(UsersPrefix);
  }

  /** A path without "/idm/users" is kept, except that the empty path becomes "/". */
  lemma GroupPathOutsideUsers(nodePath: string)
    requires forall j :: 0 <= j <= |nodePath| ==> !OccursAt(nodePath, UsersPrefix, j)
    ensures GroupPath(nodePath) == if nodePath == "" then "/" else nodePath
  {
  }

  /** The node a new group goes under: the first selected node, else the context node. */
  function GroupParent(selected: seq<Node>, contextNode: Node): (n: Node)
    ensures |selected| > 0 ==> n == selected[0]
    ensures |selected| == 0 ==> n == contextNode
  {
    if |selected| > 0 then selected[0] else contextNode
  }

  /**
   * What submit sends, from the form type, the three text fields, the selection,
   * the context node and the identifier uuid.sync() would generate.
   */
  function Submit(t: FormType, groupId: string, groupLabel: string, roleLabel: string,
                  selected: seq<Node>, contextNode: Node, newUuid: string): (r: Request)
    ensures r.CreateGroup? <==> t == Group && groupId != "" && groupLabel != ""
    ensures r.SetRole? <==> t == Role
    ensures r.CreateGroup? ==>
              && r.parent == GroupParent(selected, contextNode)
              && r.groupPath == GroupPath(r.parent.path)
              && r.groupId == groupId && r.groupLabel == groupLabel
    ensures r.SetRole? ==> r.roleUuid == r.role.Uuid == newUuid && r.role.Label == roleLabel
  {
    match t
    case Group =>
      if groupId == "" || groupLabel == "" then NoRequest
      else
        var parent := GroupParent(selected, contextNode);
        CreateGroup(parent, GroupPath(parent.path), groupId, groupLabel)
    case Role =>
      var role := IdmRole(newUuid, roleLabel);
      SetRole(role.Uuid, role)
    case User => NoRequest
  }

  /** A role is sent even with an empty label: only groups are checked. */
  lemma RoleLabelNotChecked(selected: seq<Node>, contextNode: Node, newUuid: string, groupId: string, groupLabel: string)
    ensures Submit(Role, groupId, groupLabel, "", selected, contextNode, newUuid) == SetRole(newUuid, IdmRole(newUuid, ""))
  {
  }
}
