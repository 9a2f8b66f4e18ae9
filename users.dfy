/** The users page: a paginated list filtered by search and role, with
    activate/deactivate, delete and a detail panel. */
module Users {
  import opened Js
  import opened Text
  import opened Http
  import opened Entities
  import opened Paging
  import Api

  /** The delete button is offered for every user but an admin. */
  predicate DeleteVisible(u: User) {
    u.role != Admin
  }

  /** The tooltip of the status toggle, which every row shows. */
  function ToggleTitle(u: User): (r: string)
    ensures r == "Activate" <==> u.isDeactivated
    ensures r == "Deactivate" <==> !u.isDeactivated
  {
    if u.isDeactivated then "Activate" else "Deactivate"
  }

  /** The avatar letter: the name's first character upper-cased, `?` without a name. */
  function AvatarInitial(name: Option<string>): (r: string)
    ensures |r| == 1
    ensures Truthy(name) ==> r[0] == UpperChar(name.value[0])
    ensures !Truthy(name) ==> r == "?"
  {
    var shown := OrElse(name, "?");
    ToUpper(shown[..1])
  }

  /** The `{ users, pagination }` payload of a list reply. */
  datatype UserList = UserList(users: seq<User>, pagination: Pagination)

  class UsersPage {
    var users: seq<User>
    var loading: bool
    var pagination: Pagination
    var search: string
    var roleFilter: string
    var selectedUser: Option<string>
    var detailLoading: bool
    var userDetail: Option<User>

    constructor()
      ensures users == [] && loading && pagination == InitialPagination && search == "" && roleFilter == ""
      ensures selectedUser == None && !detailLoading && userDetail == None
    {
      users, loading, pagination, search, roleFilter := [], true, InitialPagination, "", "";
      selectedUser, detailLoading, userDetail := None, false, None;
    }

    function Query(page: int): string
      reads this
    {
      Serialize(ListParams(page, search, "role", roleFilter))
    }

    /** `loadUsers(page)`: requests the page under the current filters and
        takes the list and the pagination only from a successful reply. */
    method LoadUsers(page: int, reply: Reply<UserList>) returns (call: Api.Call)
      modifies this`users, this`pagination, this`loading
      ensures call == Api.GetUsers(Some(Query(page)))
      ensures !loading
      ensures Succeeded(reply) ==> users == reply.response.payload.users && pagination == reply.response.payload.pagination
      ensures !Succeeded(reply) ==> users == old(users) && pagination == old(pagination)
    {
      loading := true;
      call := Api.GetUsers(Some(Query(page)));
      if Succeeded(reply) {
        users := reply.response.payload.users;
        pagination := reply.response.payload.pagination;
      }
      loading := false;
    }

    /** Typing in the search box; the list effect then reloads page 1. */
    method SetSearch(s: string) returns (reloadPage: int)
      modifies this`search
      ensures search == s && reloadPage == 1
    {
      search := s;
      reloadPage := 1;
    }

    /** Choosing a role filter; the list effect then reloads page 1. */
    method SetRoleFilter(r: string) returns (reloadPage: int)
      modifies this`roleFilter
      ensures roleFilter == r && reloadPage == 1
    {
      roleFilter := r;
      reloadPage := 1;
    }

    /** `handleToggleStatus`: reloads the current page only on success. */
    method HandleToggleStatus(id: string, reply: Reply<()>) returns (call: Api.Call, reload: Option<int>)
      ensures call == Api.ToggleUserStatus(id)
      ensures reload == if Succeeded(reply) then Some(pagination.page) else None
    {
      call := Api.ToggleUserStatus(id);
      reload := if Succeeded(reply) then Some(pagination.page) else None;
    }

    /** `handleDelete`: a declined confirmation sends nothing; otherwise the
        delete is sent and the current page reloads on success. */
    method HandleDelete(id: string, confirmed: bool, reply: Reply<()>) returns (call: Option<Api.Call>, reload: Option<int>)
      ensures call.Some? <==> confirmed
      ensures call.Some? ==> call.value == Api.DeleteUser(id)
      ensures reload.Some? <==> confirmed && Succeeded(reply)
      ensures reload.Some? ==> reload.value == pagination.page
    {
      if !confirmed {
        return None, None;
      }
      call := Some(Api.DeleteUser(id));
      reload := if Succeeded(reply) then Some(pagination.page) else None;
    }

    /** `handleViewUser`: opens the panel for `id` at once and fills in the
        detail from a successful reply. */
    method HandleViewUser(id: string, reply: Reply<User>) returns (call: Api.Call)
      modifies this`selectedUser, this`userDetail, this`detailLoading
      ensures call == Api.GetUser(id) && selectedUser == Some(id) && !detailLoading
      ensures Succeeded(reply) ==> userDetail == Some(reply.response.payload)
      ensures !Succeeded(reply) ==> userDetail == old(userDetail)
    {
      detailLoading := true;
      selectedUser := Some(id);
      call := Api.GetUser(id);
      if Succeeded(reply) {
        userDetail := Some(reply.response.payload);
      }
      detailLoading := false;
    }

    /** Closing the panel clears both the selection and the detail. */
    method CloseModal()
      modifies this`selectedUser, this`userDetail
      ensures selectedUser == None && userDetail == None
    {
      selectedUser, userDetail := None, None;
    }
  }
}
