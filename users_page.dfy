/** The user list (`UsersPage`): loading the list (a bare array or a page
    envelope with `content`), the rows and their fallbacks, the status row,
    deletion after confirmation, and opening and closing the editor. The
    server's replies and the answer of the confirmation dialog are inputs. */
module UsersPage {
  import opened JsValues
  import opened UserForm

  /** The body of the list reply: an array, an object (with its `content`,
      if any), or null. */
  datatype ListData = Bare(users: seq<UserRecord>) | Envelope(content: Option<seq<UserRecord>>) | NoData

  datatype ListReply = ListOk(data: ListData) | ListFailed

  /** `Array.isArray(data) ? data : data?.content || []`. A page envelope
      and a bare array with the same users give the same items. */
  function ItemsOf(data: ListData): (items: seq<UserRecord>)
    ensures data.Bare? ==> items == data.users
    ensures data.Envelope? && data.content.Some? ==> items == data.content.value
    ensures data.NoData? || data == Envelope(None) ==> items == []
  {
    match data
    case Bare(users) => users
    case Envelope(content) => if content.Some? then content.value else []
    case NoData => []
  }

  /** A request the page sends (create and update come from the editor). */
  datatype Request = ListUsers(query: string) | DeleteUser(id: Option<int>)

  /** One rendered row: id, name, e-mail and the role names. */
  datatype Row = Row(id: Option<int>, nombre: string, email: string, roles: string)

  /** `parts.join(sep)`. */
  function Join(parts: seq<string>, sep: string): (s: string)
    ensures parts == [] ==> s == ""
    ensures |parts| == 1 ==> s == parts[0]
    decreases |parts|
  {
    if parts == [] then ""
    else if |parts| == 1 then parts[0]
    else parts[0] + sep + Join(parts[1..], sep)
  }

  /** Appending a part appends one separator and that part: the joined
      string is the parts in order with one separator between neighbours. */
  lemma {:induction false} JoinSnoc(parts: seq<string>, p: string, sep: string)
    requires parts != []
    ensures Join(parts + [p], sep) == Join(parts, sep) + sep + p
    decreases |parts|
  {
    if |parts| == 1 {
      assert parts + [p] == [parts[0], p];
      assert [parts[0], p][1..] == [p];
    } else {
      assert (parts + [p])[1..] == parts[1..] + [p];
      JoinSnoc(parts[1..], p, sep);
    }
  }

  /** The joined string is as long as its parts plus one separator between
      each pair of neighbours. */
  lemma {:induction false} JoinLength(parts: seq<string>, sep: string)
    requires parts != []
    ensures |Join(parts, sep)| == SumOfLengths(parts) + (|parts| - 1) * |sep|
    decreases |parts|
  {
    if |parts| > 1 {
      JoinLength(parts[1..], sep);
    }
  }

  function SumOfLengths(parts: seq<string>): nat
    decreases |parts|
  {
    if parts == [] then 0 else |parts[0]| + SumOfLengths(parts[1..])
  }

  /** `r.name || r.nombre` for each role, a missing one shown as "". */
  function RoleNames(roles: seq<RoleRecord>): (names: seq<string>)
    ensures |names| == |roles|
    ensures forall i :: 0 <= i < |roles| ==> names[i] == OrElse(roles[i].name, OrElse(roles[i].nombre, ""))
  {
    seq(|roles|, i requires 0 <= i < |roles| => OrElse(roles[i].name, OrElse(roles[i].nombre, "")))
  }

  /** A row's cells: `nombre || name`, `email || correo`, and the role names
      (`name` first, this time) joined with ", "; missing roles give "". */
  function RowOf(u: UserRecord): (row: Row)
    ensures row.id == u.id
    ensures row.nombre == OrElse(u.nombre, OrElse(u.name, ""))
    ensures row.email == OrElse(u.email, OrElse(u.correo, ""))
    ensures u.roles.None? ==> row.roles == ""
    ensures u.roles.Some? ==> row.roles == Join(RoleNames(u.roles.value), ", ")
  {
    Row(u.id, OrElse(u.nombre, OrElse(u.name, "")), OrElse(u.email, OrElse(u.correo, "")),
        Join(RoleNames(if u.roles.Some? then u.roles.value else []), ", "))
  }

  /** The one-role case: the cell is that role's name, or its `nombre`. */
  lemma SingleRoleCell(u: UserRecord, r: RoleRecord)
    requires u.roles == Some([r])
    ensures RowOf(u).roles == OrElse(r.name, OrElse(r.nombre, ""))
  {
  }

  /** What the table body shows. */
  datatype Body = Loading | NoRecords | Rows(rows: seq<Row>)

  /** "Cargando..." while loading; otherwise "Sin registros" for an empty
      list, or one row per item, in order and unfiltered. */
  function BodyOf(loading: bool, items: seq<UserRecord>): (b: Body)
    ensures loading <==> b == Loading
    ensures !loading && items == [] <==> b == NoRecords
    ensures b.Rows? ==> |b.rows| == |items| && forall i :: 0 <= i < |items| ==> b.rows[i] == RowOf(items[i])
  {
    if loading then Loading
    else if items == [] then NoRecords
    else Rows(seq(|items|, i requires 0 <= i < |items| => RowOf(items[i])))
  }

  /** The same users as a bare array or inside an envelope render the
      same rows. */
  lemma EnvelopeRendersLikeArray(users: seq<UserRecord>)
    ensures BodyOf(false, ItemsOf(Envelope(Some(users)))) == BodyOf(false, ItemsOf(Bare(users)))
  {
  }

  class Page {
    var items: seq<UserRecord>
    var loading: bool
    var search: string
    /** The record open in the editor; `None` when it is closed. */
    var editing: Option<UserRecord>
    /** Every request sent so far, oldest first. */
    var requests: seq<Request>

    constructor ()
      ensures items == [] && loading && search == "" && editing == None && requests == []
    {
      items := [];
      loading := true;
      search := "";
      editing := None;
      requests := [];
    }

    /** What the table body currently shows: the loading notice exactly
        while loading, and otherwise one row per current item. */
    function Body(): (b: Body)
      reads this
      ensures loading <==> b == Loading
      ensures !loading && items == [] <==> b == NoRecords
      ensures b.Rows? ==> |b.rows| == |items| && forall i :: 0 <= i < |items| ==> b.rows[i] == RowOf(items[i])
    {
      BodyOf(loading, items)
    }

    /** The editor shows exactly when something is being edited. */
    predicate FormVisible()
      reads this
    {
      editing != None
    }

    method SetSearch(q: string)
      modifies this`search
      ensures search == q
    {
      search := q;
    }

    /** The start of `load`: the flag is raised and the list is requested
        with the current search text. */
    method BeginLoad()
      modifies this`loading, this`requests
      ensures loading && Body() == Loading
      ensures requests == old(requests) + [ListUsers(search)]
    {
      loading := true;
      requests := requests + [ListUsers(search)];
    }

    /** The end of `load`: the items are replaced on success and kept on
        failure, and the flag drops in either case. */
    method FinishLoad(reply: ListReply)
      modifies this`loading, this`items
      ensures !loading && Body() == BodyOf(false, items)
      ensures reply.ListOk? ==> items == ItemsOf(reply.data)
      ensures reply.ListFailed? ==> items == old(items)
    {
      if reply.ListOk? {
        items := ItemsOf(reply.data);
      }
      loading := false;
    }

    /** `load()` as one step when nothing interleaves. */
    method Load(reply: ListReply)
      modifies this`loading, this`items, this`requests
      ensures !loading && Body() == BodyOf(false, items)
      ensures requests == old(requests) + [ListUsers(search)]
      ensures items == if reply.ListOk? then ItemsOf(reply.data) else old(items)
    {
      BeginLoad();
      FinishLoad(reply);
    }

    /** "Eliminar": a delete is sent only when the dialog is confirmed; a
        successful delete is followed by a reload, a failed one stops there. */
    method Delete(u: UserRecord, confirmed: bool, deleted: bool, reply: ListReply)
      modifies this`loading, this`items, this`requests
      ensures !confirmed ==> requests == old(requests) && items == old(items) && loading == old(loading)
      ensures confirmed && !deleted ==>
        requests == old(requests) + [DeleteUser(u.id)] && items == old(items) && loading == old(loading)
      ensures confirmed && deleted ==>
        requests == old(requests) + [DeleteUser(u.id), ListUsers(search)] && !loading &&
        items == if reply.ListOk? then ItemsOf(reply.data) else old(items)
    {
      if confirmed {
        requests := requests + [DeleteUser(u.id)];
        if deleted {
          Load(reply);
        }
      }
    }

    /** "Nuevo": the editor opens on `{}`, that is, in create mode. */
    method OpenNew()
      modifies this`editing
      ensures editing == Some(NewUser) && !IsEdit(editing.value) && FormVisible()
    {
      editing := Some(NewUser);
    }

    /** "Editar": the editor opens on the row's record. */
    method OpenEdit(u: UserRecord)
      modifies this`editing
      ensures editing == Some(u) && FormVisible()
    {
      editing := Some(u);
    }

    /** "Cancelar": the editor closes, nothing is reloaded. */
    method CloseEditor()
      modifies this`editing
      ensures editing == None && !FormVisible()
    {
      editing := None;
    }

    /** `onSaved`: the editor closes and the list is reloaded. */
    method AfterSave(reply: ListReply)
      modifies this`editing, this`loading, this`items, this`requests
      ensures editing == None && !FormVisible() && !loading && Body() == BodyOf(false, items)
      ensures requests == old(requests) + [ListUsers(search)]
      ensures items == if reply.ListOk? then ItemsOf(reply.data) else old(items)
    {
      editing := None;
      Load(reply);
    }
  }
}
