/** The Corban and user hierarchies of custom_auth/models.py: the chain of
    parent Corbans, the subordinate Corbans, the subordinate users of a
    supervisor, the `clean` rules of both models and the feature toggle.
    A table is a sequence of rows in database order. */
module CustomAuthModels {
  import opened Common

  // ---------------------------------------------------------------------
  // Corban

  /** `GRAU_CORBAN`'s master grade; the grade table is not part of this
      model, only that higher grades are subordinate ones. */
  const CORBAN_MASTER: int := 1

  datatype CorbanRow = CorbanRow(id: int, parent: Option<int>, cnpj: string, corbanType: Option<int>)

  /** Primary keys are unique. */
  predicate UniqueIds(store: seq<CorbanRow>) {
    forall i, j :: 0 <= i < j < |store| ==> store[i].id != store[j].id
  }

  /** Every parent link points to a stored Corban (the foreign key). */
  predicate ParentsStored(store: seq<CorbanRow>) {
    forall i :: 0 <= i < |store| && store[i].parent.Some? ==>
      exists j :: 0 <= j < |store| && store[j].id == store[i].parent.value
  }

  function CorbanById(store: seq<CorbanRow>, id: int): (r: Option<CorbanRow>)
    ensures r.Some? ==> r.value in store && r.value.id == id
    ensures r.None? ==> forall j :: 0 <= j < |store| ==> store[j].id != id
  {
    match FirstIndex(store, (c: CorbanRow) => c.id == id)
    case Some(i) => Some(store[i])
    case None => None
  }

  /** `get_hierarchy`: the Corban, its parent, its parent's parent, ...
      until one without a parent. The loop only ends on an acyclic chain;
      `None` is a chain longer than `fuel`. */
  function Hierarchy(store: seq<CorbanRow>, c: CorbanRow, fuel: nat): (r: Option<seq<CorbanRow>>)
    requires ParentsStored(store) && c in store
    ensures r.Some? ==> |r.value| >= 1 && r.value[0] == c
    ensures r.Some? ==> r.value[|r.value| - 1].parent.None?
    ensures r.Some? ==> forall k :: 0 <= k < |r.value| - 1 ==> r.value[k].parent == Some(r.value[k + 1].id)
    ensures r.Some? ==> forall k :: 0 <= k < |r.value| ==> r.value[k] in store
    decreases fuel
  {
    if c.parent.None? then Some([c])
    else if fuel == 0 then None
    else
      var i :| 0 <= i < |store| && store[i] == c;
      var p := CorbanById(store, c.parent.value);
      match Hierarchy(store, p.value, fuel - 1)
      case None => None
      case Some(rest) => Some([c] + rest)
  }

  /** A Corban that is its own parent never reaches the end of its chain. */
  lemma {:induction false} SelfParentNeverEnds(store: seq<CorbanRow>, c: CorbanRow, fuel: nat)
    requires ParentsStored(store) && UniqueIds(store) && c in store
    requires c.parent == Some(c.id)
    ensures Hierarchy(store, c, fuel) == None
    decreases fuel
  {
    if fuel > 0 {
      var p := CorbanById(store, c.id);
      assert p == Some(c);
      SelfParentNeverEnds(store, c, fuel - 1);
    }
  }

  /** The Corbans whose parent is `id`, in database order. */
  function Children(store: seq<CorbanRow>, id: int): (r: seq<CorbanRow>)
    ensures forall k :: 0 <= k < |r| ==> r[k] in store && r[k].parent == Some(id)
    ensures forall x :: x in store && x.parent == Some(id) ==> x in r
  {
    if |store| == 0 then []
    else (if store[0].parent == Some(id) then [store[0]] else []) + Children(store[1..], id)
  }

  predicate SelfParented(c: CorbanRow) { c.parent == Some(c.id) }

  /** `get_subordinate_hierarchy`: a self-parented Corban has no
      subordinates; any other lists itself and then, child by child, each
      child's subordinates. The recursion only ends on an acyclic tree;
      `None` is a tree deeper than `fuel`. */
  function Subordinates(store: seq<CorbanRow>, c: CorbanRow, fuel: nat): (r: Option<seq<CorbanRow>>)
    ensures SelfParented(c) ==> r == Some([])
    ensures r.Some? && !SelfParented(c) ==> |r.value| >= 1 && r.value[0] == c
    ensures r.Some? ==> forall k :: 0 <= k < |r.value| ==> !SelfParented(r.value[k])
    decreases fuel, 0, 0
  {
    if SelfParented(c) then Some([])
    else if fuel == 0 then None
    else
      match SubordinatesOfAll(store, Children(store, c.id), fuel - 1)
      case None => None
      case Some(rest) => Some([c] + rest)
  }

  function SubordinatesOfAll(store: seq<CorbanRow>, cs: seq<CorbanRow>, fuel: nat): (r: Option<seq<CorbanRow>>)
    ensures r.Some? ==> forall k :: 0 <= k < |r.value| ==> !SelfParented(r.value[k])
    decreases fuel, 0, |cs|
  {
    if |cs| == 0 then Some([])
    else
      match Subordinates(store, cs[0], fuel)
      case None => None
      case Some(first) =>
        match SubordinatesOfAll(store, cs[1..], fuel)
        case None => None
        case Some(rest) => Some(first + rest)
  }

  /** Every Corban in the subordinate list of a Corban is that Corban or
      hangs below it. */
  lemma {:induction false} SubordinatesBelow(store: seq<CorbanRow>, c: CorbanRow, fuel: nat)
    requires Subordinates(store, c, fuel).Some?
    ensures forall x :: x in Subordinates(store, c, fuel).value ==> x == c || x in store
    decreases fuel, 0, 0
  {
    if !SelfParented(c) && fuel > 0 {
      SubordinatesOfAllStored(store, Children(store, c.id), fuel - 1);
    }
  }

  lemma {:induction false} SubordinatesOfAllStored(store: seq<CorbanRow>, cs: seq<CorbanRow>, fuel: nat)
    requires forall k :: 0 <= k < |cs| ==> cs[k] in store
    requires SubordinatesOfAll(store, cs, fuel).Some?
    ensures forall x :: x in SubordinatesOfAll(store, cs, fuel).value ==> x in store
    decreases fuel, 0, |cs|
  {
    if |cs| > 0 {
      SubordinatesBelow(store, cs[0], fuel);
      SubordinatesOfAllStored(store, cs[1..], fuel);
    }
  }

  const MSG_DUPLICATE_CNPJ: string := "Já existe um corban com esse CPF."
  const MSG_OWN_PARENT: string := "Um Corban não pode ser um Corban superior de si mesmo."
  const MSG_NEEDS_PARENT: string :=
    "Para o grau de Corban selecionado, é necessário selecionar um Corban Superior."

  /** `Corban.clean`: a CNPJ another Corban already holds, being one's own
      parent, and a grade below the master without a parent are refused,
      in that order. */
  function CorbanClean(c: CorbanRow, store: seq<CorbanRow>): (r: Result<()>)
    ensures r.Ok? <==>
      !(c.cnpj != "" && exists k :: 0 <= k < |store| && store[k].cnpj == c.cnpj && store[k].id != c.id)
      && !SelfParented(c)
      && !(c.corbanType.Some? && c.corbanType.value != 0 && c.corbanType.value > CORBAN_MASTER && c.parent.None?)
    ensures r.Err? ==> r.message in {MSG_DUPLICATE_CNPJ, MSG_OWN_PARENT, MSG_NEEDS_PARENT}
  {
    if c.cnpj != "" && FirstIndex(store, (o: CorbanRow) => o.cnpj == c.cnpj && o.id != c.id).Some? then
      Err(MSG_DUPLICATE_CNPJ)
    else if c.parent.Some? && c.id == c.parent.value then Err(MSG_OWN_PARENT)
    else if c.corbanType.Some? && c.corbanType.value != 0 && c.corbanType.value > CORBAN_MASTER && c.parent.None? then
      Err(MSG_NEEDS_PARENT)
    else Ok(())
  }

  /** A Corban that passes `clean` lists itself first among its
      subordinates, and a subordinate grade always has a parent to climb
      to. */
  lemma CleanCorbanHeadsItsTree(store: seq<CorbanRow>, c: CorbanRow, fuel: nat)
    requires CorbanClean(c, store).Ok?
    requires Subordinates(store, c, fuel).Some?
    ensures Subordinates(store, c, fuel).value[0] == c
    ensures c.corbanType.Some? && c.corbanType.value > CORBAN_MASTER ==> c.parent.Some?
  {
  }

  // ---------------------------------------------------------------------
  // UserProfile

  /** `EnumNivelHierarquia`'s store-owner level; the level table is not
      part of this model, only that lower levels report to a manager. */
  const DONO_LOJA: int := 4

  datatype User = User(id: int, corban: Option<int>, supervisor: Option<int>, nivel: Option<int>)

  function UserIds(users: seq<User>): set<int> {
    set k | 0 <= k < |users| :: users[k].id
  }

  /** The users a supervisor directly manages inside its own Corban. */
  function DirectReports(users: seq<User>, sup: User): (r: seq<User>)
    ensures forall k :: 0 <= k < |r| ==> r[k] in users && r[k].supervisor == Some(sup.id) && r[k].corban == sup.corban
    ensures forall u :: u in users && u.supervisor == Some(sup.id) && u.corban == sup.corban ==> u in r
  {
    if |users| == 0 then []
    else (if users[0].supervisor == Some(sup.id) && users[0].corban == sup.corban then [users[0]] else [])
         + DirectReports(users[1..], sup)
  }

  lemma InUserIds(users: seq<User>, u: User)
    requires u in users
    ensures u.id in UserIds(users)
  {
    var k :| 0 <= k < |users| && users[k] == u;
  }

  lemma GrowVisited(ids: set<int>, visited: set<int>, more: set<int>)
    requires visited <= more
    ensures |ids - more| <= |ids - visited|
  {
    assert ids - more <= ids - visited;
    SubsetCard(ids - more, ids - visited);
  }

  lemma SubsetCard(a: set<int>, b: set<int>)
    requires a <= b
    ensures |a| <= |b|
  {
    assert b == a + (b - a);
  }

  /** `_get_subordinates_recursive`: the users found below `sup` and the
      visited set after the walk. A user already visited yields nothing;
      otherwise it is marked visited and each direct report is listed and
      walked in turn with the shared visited set. */
  function Walk(users: seq<User>, sup: User, visited: set<int>): (r: (set<int>, set<int>))
    ensures visited <= r.1
    ensures sup.id in visited ==> r == ({}, visited)
    ensures sup.id !in visited ==> sup.id in r.1
    ensures forall x :: x in r.0 ==> exists u :: u in users && u.id == x && u.corban == sup.corban
    decreases |UserIds(users) - visited|, if sup.id in UserIds(users) then 0 else 1, 0
  {
    if sup.id in visited then ({}, visited)
    else
      var visited' := visited + {sup.id};
      if sup.id in UserIds(users) then
        var ids := UserIds(users);
        assert ids - visited == (ids - visited') + {sup.id};
        WalkAll(users, sup, DirectReports(users, sup), visited')
      else
        assert UserIds(users) - visited' == UserIds(users) - visited;
        WalkAll(users, sup, DirectReports(users, sup), visited')
  }

  /** Walks the direct reports `subs` of `sup` in order, threading the
      visited set. */
  function WalkAll(users: seq<User>, sup: User, subs: seq<User>, visited: set<int>): (r: (set<int>, set<int>))
    requires forall k :: 0 <= k < |subs| ==> subs[k] in users && subs[k].corban == sup.corban
    ensures visited <= r.1
    ensures forall x :: x in r.0 ==> exists u :: u in users && u.id == x && u.corban == sup.corban
    decreases |UserIds(users) - visited|, 0, |subs| + 1
  {
    if |subs| == 0 then ({}, visited)
    else
      InUserIds(users, subs[0]);
      var below := Walk(users, subs[0], visited);
      GrowVisited(UserIds(users), visited, below.1);
      var rest := WalkAll(users, sup, subs[1..], below.1);
      ({subs[0].id} + below.0 + rest.0, rest.1)
  }

  /** `UserProfile.get_subordinates`: a store owner sees every user of
      its Corban; anyone else the users found by the walk. */
  function GetSubordinates(users: seq<User>, user: User): (r: set<int>)
    ensures user.nivel == Some(DONO_LOJA) ==>
      forall u :: u in users ==> (u.id in r <== u.corban == user.corban)
  {
    if user.nivel == Some(DONO_LOJA) then set u | u in users && u.corban == user.corban :: u.id
    else Walk(users, user, {}).0
  }

  /** Both ways of finding subordinates stay inside the user's Corban. */
  lemma SubordinatesShareCorban(users: seq<User>, user: User, x: int)
    requires x in GetSubordinates(users, user)
    ensures exists u :: u in users && u.id == x && u.corban == user.corban
  {
  }

  /** A user already visited is not walked again. */
  lemma {:induction false} WalkVisitsOnce(users: seq<User>, sup: User, visited: set<int>)
    requires sup.id !in visited
    ensures var r := Walk(users, sup, visited); Walk(users, sup, r.1) == ({}, r.1)
  {
  }

  const MSG_NEEDS_MANAGER_PREFIX: string := "Para o nível de hierarquia selecionado, "
  const MSG_NEEDS_MANAGER_SUFFIX: string := ", é necessário selecionar um gestor."

  /** `UserProfile.clean`: a level below store owner needs a supervisor.
      `levelName` is the level's display name. */
  function UserClean(u: User, levelName: string): (r: Result<()>)
    ensures r.Ok? <==> !(u.nivel.Some? && u.nivel.value != 0 && u.nivel.value < DONO_LOJA && u.supervisor.None?)
    ensures r.Err? ==> r.message == MSG_NEEDS_MANAGER_PREFIX + levelName + MSG_NEEDS_MANAGER_SUFFIX
  {
    if u.nivel.Some? && u.nivel.value != 0 && u.nivel.value < DONO_LOJA && u.supervisor.None? then
      Err(MSG_NEEDS_MANAGER_PREFIX + levelName + MSG_NEEDS_MANAGER_SUFFIX)
    else Ok(())
  }

  // ---------------------------------------------------------------------
  // FeatureToggle

  datatype Toggle = Toggle(name: string, isActive: bool)

  /** A stored toggle answers with its flag; a missing one is inactive. */
  function IsFeatureActive(toggles: seq<Toggle>, name: string): (r: bool)
    ensures r ==> exists k :: 0 <= k < |toggles| && toggles[k].name == name && toggles[k].isActive
    ensures (forall k :: 0 <= k < |toggles| ==> toggles[k].name != name) ==> !r
    ensures (forall k :: 0 <= k < |toggles| && toggles[k].name == name ==> toggles[k].isActive) ==>
      (r <==> exists k :: 0 <= k < |toggles| && toggles[k].name == name)
  {
    match FirstIndex(toggles, (t: Toggle) => t.name == name)
    case None => false
    case Some(k) => toggles[k].isActive
  }
}
