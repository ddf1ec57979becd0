/**
 * The SD-WAN launcher's template renderer (`load_template`): literal
 * replacement of `{{ key }}` for six keys, the management address being split
 * at `/` into address and prefix length first.
 */
module SdwanTemplate {
  import opened Wrappers
  import opened Text

  /** The values the renderer substitutes: the VM's hostname, credentials and management addressing. */
  datatype Identity = Identity(
    hostname: string,
    username: string,
    password: string,
    mgmtAddress: string,   // CIDR form, e.g. 10.0.0.15/24
    mgmtGateway: string)

  /** Why constructing the SD-WAN VM raises. */
  datatype LaunchError =
    | NoDiskImage                   // no entry of `/` matches `.qcow2$`: `disk_image` is unbound
    | TemplateMissing(path: string) // `open` of the template file fails
    | NoPrefix                      // the management address has no `/`: `split('/')[1]` fails

  /** The six keys, in the order the substitutions are made. */
  const Keys: seq<string> := ["hostname", "username", "password", "mgmt_ip", "mgmt_prefix", "mgmt_gw"]

  /** The literal text replaced for `key`: `f"{{{{ {key} }}}}"`. */
  function Placeholder(key: string): string {
    "{{ " + key + " }}"
  }

  /** The template after replacing each key's placeholder by its value, one key after another, in order. */
  function Render(template: string, vars: seq<(string, string)>): string
    decreases |vars|
  {
    if vars == [] then template
    else Render(ReplaceAll(template, Placeholder(vars[0].0), vars[0].1), vars[1..])
  }

  /**
   * The substitutions of lines 109-116, or `None` when the management address
   * has no `/`. The address is the text before the first `/`, the prefix the
   * text after it up to any next `/`.
   */
  function Variables(id: Identity): (r: Option<seq<(string, string)>>)
    ensures r.Some? <==> '/' in id.mgmtAddress
    ensures r.Some? ==> |r.value| == |Keys| && forall i :: 0 <= i < |Keys| ==> r.value[i].0 == Keys[i]
    ensures r.Some? ==> r.value[0].1 == id.hostname && r.value[1].1 == id.username &&
                        r.value[2].1 == id.password && r.value[5].1 == id.mgmtGateway
    ensures r.Some? ==>
      var ip, prefix := r.value[3].1, r.value[4].1;
      && '/' !in ip && IsPrefix(ip + "/", id.mgmtAddress)
      && var rest := id.mgmtAddress[|ip| + 1..];
         '/' !in prefix && IsPrefix(prefix, rest) && (|prefix| < |rest| ==> rest[|prefix|] == '/')
  {
    var fields := Split(id.mgmtAddress, '/');
    SplitCount(id.mgmtAddress, '/');
    if |fields| < 2 then None
    else
      MgmtFields(id.mgmtAddress);
      Some([("hostname", id.hostname), ("username", id.username), ("password", id.password),
            ("mgmt_ip", fields[0]), ("mgmt_prefix", fields[1]), ("mgmt_gw", id.mgmtGateway)])
  }

  /** How the first two pieces of a split address relate to the address. */
  lemma MgmtFields(addr: string)
    requires '/' in addr
    ensures |Split(addr, '/')| >= 2
    ensures
      var ip, prefix := Split(addr, '/')[0], Split(addr, '/')[1];
      && '/' !in ip && IsPrefix(ip + "/", addr)
      && var rest := addr[|ip| + 1..];
         '/' !in prefix && IsPrefix(prefix, rest) && (|prefix| < |rest| ==> rest[|prefix|] == '/')
  {
    SplitCount(addr, '/');
    SplitHead(addr, '/');
    var ip := Split(addr, '/')[0];
    if |ip| == |addr| {
      assert false;
    }
    var rest := addr[|ip| + 1..];
    assert addr == ip + ['/'] + rest;
    SplitLine(ip, rest, '/');
    SplitHead(rest, '/');
    assert (ip + "/") == addr[..|ip| + 1];
  }

  /** What `load_template(name)` returns, reading the file `/templates/<name>` from `templates`. */
  function RenderTemplate(templates: map<string, string>, name: string, id: Identity): Result<string, LaunchError> {
    var path := "/templates/" + name;
    if path !in templates then Failure(TemplateMissing(path))
    else match Variables(id)
      case None => Failure(NoPrefix)
      case Some(vars) => Success(Render(templates[path], vars))
  }

  /** `load_template`: read the file, compute the substitutions, then replace one key at a time. */
  method LoadTemplate(templates: map<string, string>, name: string, id: Identity) returns (r: Result<string, LaunchError>)
    ensures r == RenderTemplate(templates, name, id)
  {
    var path := "/templates/" + name;
    if path !in templates {
      return Failure(TemplateMissing(path));
    }
    var template := templates[path];
    var variables := Variables(id);
    if variables.None? {
      return Failure(NoPrefix);
    }
    var vars := variables.value;
    for i := 0 to |vars|
      invariant Render(templates[path], vars) == Render(template, vars[i..])
    {
      assert vars[i..][1..] == vars[i + 1..];
      template := ReplaceAll(template, Placeholder(vars[i].0), vars[i].1);
    }
    r := Success(template);
  }

  /** Text without `{` holds no placeholder, so rendering leaves it alone. */
  lemma {:induction false} RenderBraceFree(t: string, vars: seq<(string, string)>)
    requires '{' !in t
    ensures Render(t, vars) == t
    decreases |vars|
  {
    if vars != [] {
      var pat := Placeholder(vars[0].0);
      ReplaceSkips(t, "", pat, vars[0].1);
      assert t + "" == t;
      RenderBraceFree(t, vars[1..]);
    }
  }

  /** A template containing none of the placeholders comes back unchanged. */
  lemma {:induction false} RenderUnchanged(t: string, vars: seq<(string, string)>)
    requires forall i :: 0 <= i < |vars| ==> !Contains(t, Placeholder(vars[i].0))
    ensures Render(t, vars) == t
    decreases |vars|
  {
    if vars != [] {
      ReplaceAbsent(t, Placeholder(vars[0].0), vars[0].1);
      RenderUnchanged(t, vars[1..]);
    }
  }

  /**
   * Text in which no `{{` can start: every `{` is followed by another
   * character, and that one is not `{`. Every placeholder starts with `{{`,
   * so no replacement ever begins inside such text, whatever follows it.
   */
  predicate Inert(s: string) {
    forall p :: 0 <= p < |s| && s[p] == '{' ==> p + 1 < |s| && s[p + 1] != '{'
  }

  /** Inert text followed by inert text is inert. */
  lemma InertAppend(a: string, b: string)
    requires Inert(a) && Inert(b)
    ensures Inert(a + b)
  {
    forall p | 0 <= p < |a + b| && (a + b)[p] == '{'
      ensures p + 1 < |a + b| && (a + b)[p + 1] != '{'
    {
      if p < |a| {
        assert a[p] == '{';
        assert (a + b)[p + 1] == a[p + 1];
      } else {
        assert b[p - |a|] == '{';
        assert (a + b)[p + 1] == b[p + 1 - |a|];
      }
    }
  }

  /** The scan for a pattern starting with `{{` copies inert text through unchanged. */
  lemma {:induction false} InertSkips(a: string, x: string, pat: string, rep: string)
    requires |pat| >= 2 && pat[0] == '{' && pat[1] == '{' && Inert(a)
    ensures ReplaceAll(a + x, pat, rep) == a + ReplaceAll(x, pat, rep)
    decreases |a|
  {
    if a == [] {
      assert a + x == x;
    } else {
      var s := a + x;
      if a[0] == '{' {
        assert s[1..2] == [a[1]] && a[1] != '{';
        MismatchNotPrefix(pat, s, 1, 1);
      } else {
        assert s[0..1] == [a[0]];
        MismatchNotPrefix(pat, s, 0, 1);
      }
      ReplaceNotAtStart(s, pat, rep);
      assert s[1..] == a[1..] + x;
      forall p | 0 <= p < |a[1..]| && a[1..][p] == '{'
        ensures p + 1 < |a[1..]| && a[1..][p + 1] != '{'
      {
        assert a[p + 1] == '{';
      }
      InertSkips(a[1..], x, pat, rep);
      AppendAssoc([a[0]], a[1..], ReplaceAll(x, pat, rep));
      assert [a[0]] + a[1..] == a;
    }
  }

  /** A template as the renderer meets it: literal text and `{{ name }}` slots, in order. */
  datatype Piece = Literal(text: string) | Slot(name: string)

  /** The text of one piece. */
  function PieceText(p: Piece): string {
    match p
    case Literal(t) => t
    case Slot(n) => Placeholder(n)
  }

  /** The template text the pieces spell out. */
  function Expand(ps: seq<Piece>): string
    decreases |ps|
  {
    if ps == [] then "" else PieceText(ps[0]) + Expand(ps[1..])
  }

  /** A literal is inert text, and so is a slot's name. */
  predicate PieceInert(p: Piece) {
    match p
    case Literal(t) => Inert(t)
    case Slot(n) => Inert(n)
  }

  /** Key `k` followed by ` }}` does not start name `n` followed by ` }}`, so `{{ k }}` cannot be found at `{{ n }}`. */
  predicate Apart(n: string, k: string) {
    !IsPrefix(k + " }}", n + " }}")
  }

  /** The value of the first substitution for `name`, if there is one. */
  function Lookup(vars: seq<(string, string)>, name: string): Option<string>
    decreases |vars|
  {
    if vars == [] then None
    else if vars[0].0 == name then Some(vars[0].1)
    else Lookup(vars[1..], name)
  }

  /** A slot for a substituted name becomes its value; anything else stays. */
  function FillPiece(p: Piece, vars: seq<(string, string)>): Piece {
    match p
    case Literal(_) => p
    case Slot(n) =>
      match Lookup(vars, n)
      case Some(v) => Literal(v)
      case None => p
  }

  /** The intended rendering: every slot for a substituted name holds its value, everything else is kept. */
  function Fill(ps: seq<Piece>, vars: seq<(string, string)>): (r: seq<Piece>)
    ensures |r| == |ps|
  {
    seq(|ps|, i requires 0 <= i < |ps| => FillPiece(ps[i], vars))
  }

  /** The pieces after one replacement: every slot for `k` has become the literal `v`. */
  function Subst(ps: seq<Piece>, k: string, v: string): (r: seq<Piece>)
    ensures |r| == |ps|
  {
    seq(|ps|, i requires 0 <= i < |ps| => if ps[i] == Slot(k) then Literal(v) else ps[i])
  }

  /** The placeholder of `k` is not found at the start of the placeholder of a name apart from `k`. */
  lemma SlotMismatch(n: string, k: string, rest: string)
    requires Apart(n, k) && ' ' !in k
    ensures !IsPrefix(Placeholder(k), Placeholder(n) + rest)
  {
    var s := Placeholder(n) + rest;
    var pat := Placeholder(k);
    if |n| < |k| {
      // `{{ n` is followed by a space where the key has a letter
      assert s[3 + |n|] == ' ' && pat[3 + |n|] == k[|n|];
      assert s[3 + |n|..4 + |n|] != pat[3 + |n|..4 + |n|] by {
        assert s[3 + |n|..4 + |n|][0] == s[3 + |n|];
      }
      MismatchNotPrefix(pat, s, 3 + |n|, 1);
    } else {
      assert s[3..|k| + 6] == (n + " }}")[..|k| + 3];
      assert pat[3..|k| + 6] == k + " }}";
      MismatchNotPrefix(pat, s, 3, |k| + 3);
    }
  }

  /** A placeholder without its first `{` is inert when the name is. */
  lemma PlaceholderTailInert(n: string)
    requires Inert(n)
    ensures Inert(Placeholder(n)[1..])
  {
    assert Placeholder(n)[1..] == "{ " + n + " }}";
    InertAppend("{ ", n);
    InertAppend("{ " + n, " }}");
  }

  /** A slot whose name is apart from the key is passed over whole. */
  lemma SlotKept(n: string, k: string, rest: string, v: string)
    requires Inert(n) && Apart(n, k) && ' ' !in k
    ensures ReplaceAll(Placeholder(n) + rest, Placeholder(k), v) == Placeholder(n) + ReplaceAll(rest, Placeholder(k), v)
  {
    var s := Placeholder(n) + rest;
    var pat := Placeholder(k);
    var tail := Placeholder(n)[1..];
    SlotMismatch(n, k, rest);
    ReplaceNotAtStart(s, pat, v);
    assert s[1..] == tail + rest;
    PlaceholderTailInert(n);
    InertSkips(tail, rest, pat, v);
    AppendAssoc([s[0]], tail, ReplaceAll(rest, pat, v));
    assert [s[0]] + tail == Placeholder(n);
  }

  /**
   * One replacement on a template of pieces: every slot for `k` is replaced
   * by `v`, and nothing else changes, provided the pieces are inert and every
   * other slot's name is apart from `k`.
   */
  lemma {:induction false} ReplaceStep(ps: seq<Piece>, k: string, v: string)
    requires ' ' !in k
    requires forall i :: 0 <= i < |ps| ==> PieceInert(ps[i])
    requires forall i :: 0 <= i < |ps| && ps[i].Slot? && ps[i].name != k ==> Apart(ps[i].name, k)
    ensures ReplaceAll(Expand(ps), Placeholder(k), v) == Expand(Subst(ps, k, v))
    decreases |ps|
  {
    var pat := Placeholder(k);
    if ps != [] {
      var rest := Expand(ps[1..]);
      assert Subst(ps, k, v)[1..] == Subst(ps[1..], k, v);
      forall i | 0 <= i < |ps[1..]| ensures ps[1..][i] == ps[i + 1] { }
      ReplaceStep(ps[1..], k, v);
      match ps[0]
      case Literal(t) =>
        InertSkips(t, rest, pat, v);
      case Slot(n) =>
        if n == k {
          ReplaceAtStart(pat, rest, v);
        } else {
          SlotKept(n, k, rest, v);
        }
    }
  }

  /**
   * The renderer on a template of pieces gives the intended rendering: every
   * slot for a substituted name holds the first value given for it, other
   * slots and the literal text are kept. This holds when the keys have no
   * space, the literals and slot names are inert, every value that fills a
   * slot is inert, and every slot's name is apart from each key other than
   * itself.
   */
  lemma {:induction false} RenderPieces(ps: seq<Piece>, vars: seq<(string, string)>)
    requires forall j :: 0 <= j < |vars| ==> ' ' !in vars[j].0
    requires forall i :: 0 <= i < |ps| ==> PieceInert(ps[i])
    requires forall i, j :: 0 <= i < |ps| && 0 <= j < |vars| && ps[i] == Slot(vars[j].0) ==> Inert(vars[j].1)
    requires forall i, j :: 0 <= i < |ps| && 0 <= j < |vars| && ps[i].Slot? && ps[i].name != vars[j].0 ==>
      Apart(ps[i].name, vars[j].0)
    ensures Render(Expand(ps), vars) == Expand(Fill(ps, vars))
    decreases |vars|
  {
    if vars == [] {
      assert Fill(ps, vars) == ps;
    } else {
      var k, v := vars[0].0, vars[0].1;
      ReplaceStep(ps, k, v);
      var next := Subst(ps, k, v);
      var later := vars[1..];
      forall i | 0 <= i < |next| ensures PieceInert(next[i]) {
        if ps[i] == Slot(k) {
          assert Inert(vars[0].1);
        }
      }
      forall i, j | 0 <= i < |next| && 0 <= j < |later| && next[i] == Slot(later[j].0)
        ensures Inert(later[j].1)
      {
        assert next[i] == ps[i] && later[j] == vars[j + 1];
      }
      forall i, j | 0 <= i < |next| && 0 <= j < |later| && next[i].Slot? && next[i].name != later[j].0
        ensures Apart(next[i].name, later[j].0)
      {
        assert next[i] == ps[i] && later[j] == vars[j + 1];
      }
      forall j | 0 <= j < |later| ensures ' ' !in later[j].0 {
        assert later[j] == vars[j + 1];
      }
      RenderPieces(next, later);
      assert Fill(next, later) == Fill(ps, vars);
    }
  }

  /** The first substitution for a name is the one found. */
  lemma {:induction false} LookupFirst(vars: seq<(string, string)>, j: nat)
    requires j < |vars| && forall i :: 0 <= i < j ==> vars[i].0 != vars[j].0
    ensures Lookup(vars, vars[j].0) == Some(vars[j].1)
  {
    if j > 0 {
      assert vars[1..][j - 1] == vars[j];
      LookupFirst(vars[1..], j - 1);
    }
  }

  /** A name no substitution is for is not found. */
  lemma {:induction false} LookupAbsent(vars: seq<(string, string)>, name: string)
    requires forall i :: 0 <= i < |vars| ==> vars[i].0 != name
    ensures Lookup(vars, name) == None
    decreases |vars|
  {
    if vars != [] {
      LookupAbsent(vars[1..], name);
    }
  }

  /**
   * The six keys are inert and have no space, and the placeholder of one is
   * never found at that of another.
   */
  lemma KeysUnrelated()
    ensures forall i :: 0 <= i < |Keys| ==> '{' !in Keys[i] && ' ' !in Keys[i] && Inert(Keys[i])
    ensures forall i, j :: 0 <= i < |Keys| && 0 <= j < |Keys| && i != j ==> Apart(Keys[i], Keys[j])
  {
    forall i, j | 0 <= i < |Keys| && 0 <= j < |Keys| && i != j
      ensures Apart(Keys[i], Keys[j])
    {
      // the keys differ at their first character, the three `mgmt_` keys at their sixth
      var d := if 3 <= i && 3 <= j then 5 else 0;
      assert (Keys[j] + " }}")[d] == Keys[j][d] != Keys[i][d] == (Keys[i] + " }}")[d];
    }
  }

  /**
   * Rendering with substitutions for the six keys, in order: every slot for
   * a key holds that key's value, every other slot stays verbatim, and the
   * literal text is kept. It holds whenever the literals, slot names and the
   * values that fill a slot cannot start a `{{` of their own and no other
   * slot's name starts with a key followed by ` }}`.
   */
  lemma RenderKeys(ps: seq<Piece>, vars: seq<(string, string)>)
    requires |vars| == |Keys| && forall j :: 0 <= j < |Keys| ==> vars[j].0 == Keys[j]
    requires forall i :: 0 <= i < |ps| ==> PieceInert(ps[i])
    requires forall i, j :: 0 <= i < |ps| && 0 <= j < |Keys| && ps[i] == Slot(Keys[j]) ==> Inert(vars[j].1)
    requires forall i, j :: 0 <= i < |ps| && 0 <= j < |Keys| && ps[i].Slot? && ps[i].name !in Keys ==>
      Apart(ps[i].name, Keys[j])
    ensures Render(Expand(ps), vars) == Expand(Fill(ps, vars))
    ensures forall i, j :: 0 <= i < |ps| && 0 <= j < |Keys| && ps[i] == Slot(Keys[j]) ==> Fill(ps, vars)[i] == Literal(vars[j].1)
    ensures forall i :: 0 <= i < |ps| && !(ps[i].Slot? && ps[i].name in Keys) ==> Fill(ps, vars)[i] == ps[i]
  {
    KeysUnrelated();
    forall i, j | 0 <= i < |ps| && 0 <= j < |vars| && ps[i].Slot? && ps[i].name != vars[j].0
      ensures Apart(ps[i].name, vars[j].0)
    {
      if ps[i].name in Keys {
        var m :| 0 <= m < |Keys| && Keys[m] == ps[i].name;
        assert m != j;
      }
    }
    RenderPieces(ps, vars);
    forall i, j | 0 <= i < |ps| && 0 <= j < |Keys| && ps[i] == Slot(Keys[j])
      ensures Fill(ps, vars)[i] == Literal(vars[j].1)
    {
      forall m | 0 <= m < j ensures vars[m].0 != vars[j].0 {
        assert Apart(Keys[m], Keys[j]);
      }
      LookupFirst(vars, j);
    }
    forall i | 0 <= i < |ps| && !(ps[i].Slot? && ps[i].name in Keys)
      ensures Fill(ps, vars)[i] == ps[i]
    {
      if ps[i].Slot? {
        LookupAbsent(vars, ps[i].name);
      }
    }
  }

  /**
   * `load_template` for a VM on a template of pieces: each slot for one of
   * the six keys holds the VM's value for that key, every other slot and all
   * literal text are kept, under the conditions of `RenderKeys`.
   */
  lemma LoadTemplateSubstitutes(ps: seq<Piece>, id: Identity)
    requires '/' in id.mgmtAddress
    requires forall i :: 0 <= i < |ps| ==> PieceInert(ps[i])
    requires forall i, j :: 0 <= i < |ps| && 0 <= j < |Keys| && ps[i] == Slot(Keys[j]) ==> Inert(Variables(id).value[j].1)
    requires forall i, j :: 0 <= i < |ps| && 0 <= j < |Keys| && ps[i].Slot? && ps[i].name !in Keys ==>
      Apart(ps[i].name, Keys[j])
    ensures
      var vars := Variables(id).value;
      && Render(Expand(ps), vars) == Expand(Fill(ps, vars))
      && (forall i, j :: 0 <= i < |ps| && 0 <= j < |Keys| && ps[i] == Slot(Keys[j]) ==> Fill(ps, vars)[i] == Literal(vars[j].1))
      && (forall i :: 0 <= i < |ps| && !(ps[i].Slot? && ps[i].name in Keys) ==> Fill(ps, vars)[i] == ps[i])
  {
    RenderKeys(ps, Variables(id).value);
  }

  /** `host` is apart from every key, and the pieces of the example below are inert. */
  lemma HostApart()
    ensures "host" !in Keys && Inert("host") && Inert("-") && Inert(" ") && Inert("hostname") && Inert("r1")
    ensures forall j :: 0 <= j < |Keys| ==> Apart("host", Keys[j])
  {
    assert ("host" + " }}")[4] == ' ' != 'n' == (Keys[0] + " }}")[4];
    forall j | 1 <= j < |Keys| ensures Apart("host", Keys[j]) {
      assert ("host" + " }}")[0] == 'h' != Keys[j][0] == (Keys[j] + " }}")[0];
    }
  }

  /** The text of a piece followed by more pieces. */
  lemma ExpandCons(p: Piece, ps: seq<Piece>)
    ensures Expand([p] + ps) == PieceText(p) + Expand(ps)
  {
    assert ([p] + ps)[1..] == ps;
  }

  /** The text of five pieces. */
  lemma ExpandFive(f: seq<Piece>)
    requires |f| == 5
    ensures Expand(f) == PieceText(f[0]) + (PieceText(f[1]) + (PieceText(f[2]) + (PieceText(f[3]) + PieceText(f[4]))))
  {
    assert f == [f[0]] + ([f[1]] + ([f[2]] + ([f[3]] + ([f[4]] + []))));
    ExpandCons(f[4], []);
    assert PieceText(f[4]) + "" == PieceText(f[4]);
    ExpandCons(f[3], [f[4]] + []);
    ExpandCons(f[2], [f[3]] + ([f[4]] + []));
    ExpandCons(f[1], [f[2]] + ([f[3]] + ([f[4]] + [])));
    ExpandCons(f[0], [f[1]] + ([f[2]] + ([f[3]] + ([f[4]] + []))));
  }

  /** The pieces of `RepeatedSlotExample` rendered with substitutions for the six keys, hostname `r1` first. */
  lemma RepeatedSlotPieces(vars: seq<(string, string)>)
    requires |vars| == |Keys| && (forall j :: 0 <= j < |Keys| ==> vars[j].0 == Keys[j]) && vars[0].1 == "r1"
    ensures
      var ps := [Slot("hostname"), Literal("-"), Slot("hostname"), Literal(" "), Slot("host")];
      Render(Expand(ps), vars) == "r1" + ("-" + ("r1" + (" " + Placeholder("host"))))
  {
    var ps := [Slot("hostname"), Literal("-"), Slot("hostname"), Literal(" "), Slot("host")];
    HostApart();
    assert Keys[0] == "hostname";
    forall i | 0 <= i < |ps| ensures PieceInert(ps[i]) { }
    forall i, j | 0 <= i < |ps| && 0 <= j < |Keys| && ps[i] == Slot(Keys[j]) ensures Inert(vars[j].1) {
      assert Keys[j] == "hostname" by { assert ps[i].name == Keys[j]; }
      assert j == 0;
    }
    RenderKeys(ps, vars);
    var f := Fill(ps, vars);
    assert f[0] == Literal("r1") && f[1] == Literal("-") && f[2] == Literal("r1");
    assert f[3] == Literal(" ") && f[4] == Slot("host");
    ExpandFive(f);
  }

  /**
   * A template with a repeated slot and a slot named by a key's prefix:
   * `{{ hostname }}-{{ hostname }} {{ host }}` for hostname `r1` renders as
   * `r1-r1 {{ host }}`, whatever the other values.
   */
  lemma RepeatedSlotExample(id: Identity)
    requires id.hostname == "r1" && '/' in id.mgmtAddress
    ensures
      var ps := [Slot("hostname"), Literal("-"), Slot("hostname"), Literal(" "), Slot("host")];
      Render(Expand(ps), Variables(id).value) == "r1" + ("-" + ("r1" + (" " + Placeholder("host"))))
  {
    RepeatedSlotPieces(Variables(id).value);
  }

  /** The first replacement of `HostnameExample`. */
  lemma HostnameStep()
    ensures ReplaceAll("host={{ hostname }}", Placeholder("hostname"), "r1") == "host=r1"
  {
    var pat := Placeholder("hostname");
    assert "host={{ hostname }}" == "host=" + pat;
    ReplaceSkips("host=", pat, pat, "r1");
    ReplaceAtStart(pat, "", "r1");
    assert pat + "" == pat;
  }

  /** Rendering `host={{ hostname }}` for hostname `r1` gives `host=r1`, whatever the other values. */
  lemma HostnameExample(id: Identity)
    requires id.hostname == "r1" && '/' in id.mgmtAddress
    ensures Render("host={{ hostname }}", Variables(id).value) == "host=r1"
  {
    var vars := Variables(id).value;
    assert vars[0] == ("hostname", "r1");
    HostnameStep();
    RenderBraceFree("host=r1", vars[1..]);
  }

  /** A placeholder for a key the renderer does not know, `{{ foo }}`, is left as it is. */
  lemma UnknownKeyExample(id: Identity)
    requires '/' in id.mgmtAddress
    ensures Render("{{ foo }}", Variables(id).value) == "{{ foo }}"
  {
    var vars := Variables(id).value;
    forall i | 0 <= i < |vars| ensures !Contains("{{ foo }}", Placeholder(vars[i].0)) {
      if Contains("{{ foo }}", Placeholder(vars[i].0)) {
        ContainsShorter("{{ foo }}", Placeholder(vars[i].0));
        assert false;
      }
    }
    RenderUnchanged("{{ foo }}", vars);
  }
}
