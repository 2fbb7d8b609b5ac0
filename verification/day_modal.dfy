/**
  The day modal: the list of the maintenances of one calendar day, each with
  its status badge, the names of its user, parking lot and type, its
  description and its start and (when present) end time.
 */
module DayModal {
  import opened Js
  import opened Gregorian
  import opened Interfaces
  import opened Seqs
  import Mantenimientos

  /** The text shown when a lookup finds nothing. */
  const NotAvailable := "N/A"

  /** `getUserName(idRol)`: the first user whose *role* id is `idRol`. */
  function UserName(users: seq<Usuario>, idRol: int): (name: string)
    ensures name == NotAvailable <==> forall i :: 0 <= i < |users| ==> users[i].idRol != idRol
    ensures name != NotAvailable ==>
      exists k :: 0 <= k < |users| && users[k].idRol == idRol && name == users[k].nombre + " " + users[k].apellido
        && forall j :: 0 <= j < k ==> users[j].idRol != idRol
  {
    match Find(users, (u: Usuario) => u.idRol == idRol)
    case None => NotAvailable
    case Some(u) =>
      var name := u.nombre + " " + u.apellido;
      assert name[|u.nombre|] == ' ' && ' ' !in NotAvailable;
      name
  }

  /** `getParqueaderoName`: the name of the first lot with that id, or 'N/A'. */
  function ParqueaderoName(ps: seq<Parqueadero>, id: int): (name: string)
    ensures (forall i :: 0 <= i < |ps| ==> ps[i].idParqueadero != id) ==> name == NotAvailable
    ensures (exists i :: 0 <= i < |ps| && ps[i].idParqueadero == id) ==>
      exists k :: 0 <= k < |ps| && ps[k].idParqueadero == id && name == ps[k].nombre
        && forall j :: 0 <= j < k ==> ps[j].idParqueadero != id
  {
    match Find(ps, (p: Parqueadero) => p.idParqueadero == id)
    case None => NotAvailable
    case Some(p) => p.nombre
  }

  /** `getTipoMantenimientoName`: the name of the first type with that id, or 'N/A'. */
  function TipoName(ts: seq<TipoMantenimiento>, id: int): (name: string)
    ensures (forall i :: 0 <= i < |ts| ==> ts[i].idTipo != id) ==> name == NotAvailable
    ensures (exists i :: 0 <= i < |ts| && ts[i].idTipo == id) ==>
      exists k :: 0 <= k < |ts| && ts[k].idTipo == id && name == ts[k].nombre
        && forall j :: 0 <= j < k ==> ts[j].idTipo != id
  {
    match Find(ts, (t: TipoMantenimiento) => t.idTipo == id)
    case None => NotAvailable
    case Some(t) => t.nombre
  }

  /** The classes every badge carries. */
  const BadgeBase := "px-2 py-1 text-xs font-medium rounded-full"

  /** The colour classes of a badge. */
  function ColourClasses(c: Mantenimientos.Colour): string {
    match c
    case Green => "bg-green-100 text-green-800"
    case Orange => "bg-orange-100 text-orange-800"
    case Red => "bg-red-100 text-red-800"
    case Blue => "bg-blue-100 text-blue-800"
  }

  /**
    `getStatusBadge`: the shared classes followed by the colour classes of
    the status, the same colour the calendar chip of that status gets.
   */
  function StatusBadge(estado: string): (b: string)
    ensures b == BadgeBase + " " + ColourClasses(Mantenimientos.StatusColor(estado))
  {
    BadgeBase + " " +
      if estado == Completado then "bg-green-100 text-green-800"
      else if estado == Pendiente then "bg-orange-100 text-orange-800"
      else if estado == Cancelado then "bg-red-100 text-red-800"
      else "bg-blue-100 text-blue-800"
  }

  /** Distinct colours have distinct classes. */
  lemma ColourClassesInjective(c: Mantenimientos.Colour, d: Mantenimientos.Colour)
    ensures ColourClasses(c) == ColourClasses(d) <==> c == d
  {
    if c != d {
      assert ColourClasses(c)[3] != ColourClasses(d)[3];
    }
  }

  /**
    Two statuses get the same badge exactly when the calendar gives them the
    same colour: the modal and the calendar agree on every status.
   */
  lemma BadgeAgreesWithCalendar(a: string, b: string)
    ensures StatusBadge(a) == StatusBadge(b) <==> Mantenimientos.StatusColor(a) == Mantenimientos.StatusColor(b)
  {
    var ca, cb := Mantenimientos.StatusColor(a), Mantenimientos.StatusColor(b);
    ColourClassesInjective(ca, cb);
    var prefix := BadgeBase + " ";
    assert StatusBadge(a) == prefix + ColourClasses(ca) && StatusBadge(b) == prefix + ColourClasses(cb);
    if StatusBadge(a) == StatusBadge(b) {
      assert (prefix + ColourClasses(ca))[|prefix|..] == ColourClasses(ca);
      assert (prefix + ColourClasses(cb))[|prefix|..] == ColourClasses(cb);
    }
  }

  /** The heading: the date of the first maintenance, or a fixed text for an empty day. */
  datatype Title = OnDate(date: Date) | DayFallback

  /** One list item. */
  datatype Item = Item(
    idMantenimiento: int,
    estado: string,
    badge: string,
    usuario: string,
    parqueadero: string,
    tipo: string,
    descripcion: string,
    inicio: Timestamp,
    fin: Option<Timestamp>)

  /** The list, or the empty-state message. */
  datatype Body = Items(items: seq<Item>) | EmptyState

  datatype DayView = DayView(title: Title, body: Body)

  /** The item of one maintenance; the user is looked up by `idRol`. */
  function ItemOf(m: Mantenimiento, users: seq<Usuario>, ps: seq<Parqueadero>, ts: seq<TipoMantenimiento>): (it: Item)
    ensures it.idMantenimiento == m.idMantenimiento && it.estado == m.estado
    ensures it.descripcion != ""
    ensures it.descripcion == if m.observaciones != "" then m.observaciones else "No especificada"
    ensures it.fin.Some? <==> m.fechaFin.Some?
    ensures it.badge == StatusBadge(m.estado)
    ensures it.usuario == UserName(users, m.idUsuario)
    ensures it.parqueadero == ParqueaderoName(ps, m.idParqueadero)
    ensures it.tipo == TipoName(ts, m.idTipoMantenimiento)
    ensures it.inicio == m.fechaInicio && it.fin == m.fechaFin
  {
    Item(m.idMantenimiento, m.estado, StatusBadge(m.estado),
      UserName(users, m.idUsuario), ParqueaderoName(ps, m.idParqueadero), TipoName(ts, m.idTipoMantenimiento),
      if m.observaciones != "" then m.observaciones else "No especificada",
      m.fechaInicio, m.fechaFin)
  }

  /**
    The modal: nothing when closed; otherwise one item per maintenance, in
    the order given, or the empty state when there are none.
   */
  function Render(isOpen: bool, ms: seq<Mantenimiento>, users: seq<Usuario>, ps: seq<Parqueadero>, ts: seq<TipoMantenimiento>): (v: Option<DayView>)
    ensures v.None? <==> !isOpen
    ensures v.Some? ==> (v.value.body.EmptyState? <==> ms == [])
    ensures v.Some? && ms != [] ==> v.value.title == OnDate(ms[0].fechaInicio.date)
    ensures v.Some? && ms == [] ==> v.value.title == DayFallback
    ensures v.Some? && v.value.body.Items? ==>
      && |v.value.body.items| == |ms|
      && forall i :: 0 <= i < |ms| ==> v.value.body.items[i] == ItemOf(ms[i], users, ps, ts)
  {
    if !isOpen then None
    else if ms == [] then Some(DayView(DayFallback, EmptyState))
    else Some(DayView(OnDate(ms[0].fechaInicio.date), Items(seq(|ms|, i requires 0 <= i < |ms| => ItemOf(ms[i], users, ps, ts)))))
  }

  /**
    The user line looks the maintenance's `idUsuario` up among the users'
    role ids: a user whose role id matches is named even when another user
    owns the maintenance.
   */
  lemma UserLineUsesRoleId(m: Mantenimiento, owner: Usuario, other: Usuario, ps: seq<Parqueadero>, ts: seq<TipoMantenimiento>)
    requires owner.idUsuario == m.idUsuario && owner.idRol != m.idUsuario
    requires other.idRol == m.idUsuario
    ensures ItemOf(m, [other, owner], ps, ts).usuario == other.nombre + " " + other.apellido
    ensures ItemOf(m, [owner], ps, ts).usuario == NotAvailable
  {
    var users := [other, owner];
    assert users[0].idRol == m.idUsuario;
  }
}
