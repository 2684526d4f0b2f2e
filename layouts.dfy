/** The sidebar shared by src/layout/AdminLayout.jsx,
    src/layouts/PacienteLayout.jsx and src/pages/DashboardAdmin.jsx: an
    accordion of submenus of which at most one is open, a user read from
    localStorage when mounted, and (in the two layouts) a logout button. */
module Sidebar {
  import opened JsText
  import opened Storage

  const UsuarioKey: string := "usuario"

  /** `openMenu === menu ? null : menu`. */
  function ToggleMenu(openMenu: Option<string>, menu: string): (r: Option<string>)
    ensures openMenu == Some(menu) ==> r.None?
    ensures openMenu != Some(menu) ==> r == Some(menu)
  {
    if openMenu == Some(menu) then None else Some(menu)
  }

  /** `openMenu === name &&`: the submenu `name` shows its links. */
  predicate Visible(openMenu: Option<string>, name: string)
  {
    openMenu == Some(name)
  }

  /** The submenus among `menus` whose links are shown. */
  function OpenSubmenus(openMenu: Option<string>, menus: seq<string>): (s: set<string>)
    ensures forall m :: m in s <==> m in menus && Visible(openMenu, m)
    ensures |s| <= 1
  {
    var s := set m | m in menus && Visible(openMenu, m);
    assert s <= (if openMenu.Some? then {openMenu.value} else {});
    SubsetCard(s, if openMenu.Some? then {openMenu.value} else {});
    s
  }

  lemma SubsetCard<T>(a: set<T>, b: set<T>)
    requires a <= b
    ensures |a| <= |b|
  {
    assert b == a + (b - a);
  }

  /** Clicking the open submenu closes it and clicking it again reopens it;
      from a state where another submenu is open, two clicks leave all closed. */
  lemma ToggleTwice(openMenu: Option<string>, menu: string)
    ensures openMenu.None? || openMenu == Some(menu) ==> ToggleMenu(ToggleMenu(openMenu, menu), menu) == openMenu
    ensures openMenu.Some? && openMenu != Some(menu) ==> ToggleMenu(ToggleMenu(openMenu, menu), menu).None?
  {
  }

  /** After a click on `menu`, either every submenu is closed or `menu` is the only one shown. */
  lemma ClickShowsOnlyClicked(openMenu: Option<string>, menu: string, menus: seq<string>)
    requires menu in menus
    ensures OpenSubmenus(ToggleMenu(openMenu, menu), menus) == if openMenu == Some(menu) then {} else {menu}
  {
    var after := OpenSubmenus(ToggleMenu(openMenu, menu), menus);
    if openMenu == Some(menu) {
      assert after == {};
    } else {
      assert menu in after;
      assert after == {menu};
    }
  }

  class Layout {
    var usuario: Usuario
    var openMenu: Option<string>
    var navigatedTo: Option<string>
    const storage: LocalStorage
    /** Where the mount effect sends a visitor without a stored user. */
    const redirect: string

    /** `useState({ nombre: "", rol: "" })` and `useState(null)`. */
    constructor (storage: LocalStorage, redirect: string)
      ensures usuario == Usuario("", Some("")) && openMenu.None? && navigatedTo.None?
      ensures this.storage == storage && this.redirect == redirect
    {
      usuario, openMenu, navigatedTo := Usuario("", Some("")), None, None;
      this.storage := storage;
      this.redirect := redirect;
    }

    /** The mount effect: a falsy stored entry navigates away; otherwise the
        parsed user replaces `usuario` (an unparsable entry throws and
        changes nothing). */
    method Mount()
      modifies this`usuario, this`navigatedTo
      ensures !ItemTruthy(storage.GetItem(UsuarioKey)) ==>
                navigatedTo == Some(redirect) && usuario == old(usuario)
      ensures ItemTruthy(storage.GetItem(UsuarioKey)) ==> navigatedTo == old(navigatedTo)
      ensures ItemTruthy(storage.GetItem(UsuarioKey)) && storage.items[UsuarioKey].UserJson? ==>
                usuario == storage.items[UsuarioKey].usuario
      ensures ItemTruthy(storage.GetItem(UsuarioKey)) && !storage.items[UsuarioKey].UserJson? ==>
                usuario == old(usuario)
    {
      var u := storage.GetItem(UsuarioKey);
      if ItemTruthy(u) {
        match ParseUsuario(u) {
          case Parsed(parsed) =>
            usuario := parsed;
          case Absent =>
            assert false;
          case ParseError =>
        }
      } else {
        navigatedTo := Some(redirect);
      }
    }

    /** `toggleMenu(menu)`. */
    method Toggle(menu: string)
      modifies this`openMenu
      ensures openMenu == ToggleMenu(old(openMenu), menu)
    {
      openMenu := ToggleMenu(openMenu, menu);
    }

    /** `handleLogout`: remove the three session keys, every other key kept,
        and go to the login page. */
    method Logout()
      modifies storage, this`navigatedTo
      ensures storage.items == old(storage.items) - SessionKeys
      ensures forall k :: k in storage.items <==> k in old(storage.items) && k !in SessionKeys
      ensures navigatedTo == Some("/login")
    {
      storage.RemoveSessionKeys();
      navigatedTo := Some("/login");
    }
  }
}

/** src/layout/AdminLayout.jsx. */
module AdminLayout {
  import opened JsText
  import opened Storage
  import opened Sidebar

  const Menus: seq<string> := ["perfil", "pacientes", "recursos", "reportes"]

  method Open(storage: LocalStorage) returns (layout: Layout)
    ensures fresh(layout) && layout.storage == storage && layout.redirect == "/login"
    ensures layout.usuario == Usuario("", Some("")) && layout.openMenu.None? && layout.navigatedTo.None?
  {
    layout := new Layout(storage, "/login");
  }

  /** A logout followed by a new mount sends the visitor to the login page. */
  method LogoutThenRemount(storage: LocalStorage) returns (again: Layout)
    modifies storage
    ensures again.navigatedTo == Some("/login")
  {
    var layout := Open(storage);
    layout.Logout();
    again := Open(storage);
    again.Mount();
  }
}

/** src/layouts/PacienteLayout.jsx: the same logic with two submenus. */
module PacienteLayout {
  import opened JsText
  import opened Storage
  import opened Sidebar

  const Menus: seq<string> := ["perfil", "recursos"]

  method Open(storage: LocalStorage) returns (layout: Layout)
    ensures fresh(layout) && layout.storage == storage && layout.redirect == "/login"
    ensures layout.usuario == Usuario("", Some("")) && layout.openMenu.None? && layout.navigatedTo.None?
  {
    layout := new Layout(storage, "/login");
  }

  /** A logout followed by a new mount sends the visitor to the login page. */
  method LogoutThenRemount(storage: LocalStorage) returns (again: Layout)
    modifies storage
    ensures again.navigatedTo == Some("/login")
  {
    var layout := Open(storage);
    layout.Logout();
    again := Open(storage);
    again.Mount();
  }
}

/** src/pages/DashboardAdmin.jsx: the admin sidebar again, without a logout
    button, and sending a visitor without a stored user to "/" instead. */
module DashboardAdmin {
  import opened JsText
  import opened Storage
  import opened Sidebar
  import AdminLayout

  const Menus: seq<string> := ["perfil", "pacientes", "recursos", "reportes"]

  method Open(storage: LocalStorage) returns (layout: Layout)
    ensures fresh(layout) && layout.storage == storage && layout.redirect == "/"
    ensures layout.usuario == Usuario("", Some("")) && layout.openMenu.None? && layout.navigatedTo.None?
  {
    layout := new Layout(storage, "/");
  }

  /** Without a stored user the dashboard goes to "/" where the admin layout goes to "/login". */
  method MountWithoutUser(storage: LocalStorage) returns (dashboard: Option<string>, layout: Option<string>)
    requires UsuarioKey !in storage.items
    ensures dashboard == Some("/") && layout == Some("/login")
  {
    var d := Open(storage);
    d.Mount();
    var a := AdminLayout.Open(storage);
    a.Mount();
    dashboard, layout := d.navigatedTo, a.navigatedTo;
  }
}
