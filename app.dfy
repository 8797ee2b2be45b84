/** The application shell: the header's page title and breadcrumbs, when the
    header and layout chrome are shown, and the guard of the app context. */
module App {
  import opened Js
  import opened Text

  /** `.filter(Boolean)` on strings: the empty ones go. */
  function NonEmptyParts(parts: seq<string>): (r: seq<string>)
    ensures forall k :: 0 <= k < |r| ==> r[k] != ""
    ensures forall x :: x in r <==> x in parts && x != ""
  {
    if parts == [] then []
    else (if parts[0] != "" then [parts[0]] else []) + NonEmptyParts(parts[1..])
  }

  /** `pathname.split('/').filter(Boolean)`. */
  function Segments(pathname: string): (r: seq<string>)
    ensures forall x :: x in r <==> x in Split(pathname, '/') && x != ""
    ensures forall k :: 0 <= k < |r| ==> r[k] != "" && '/' !in r[k]
  {
    var parts := Split(pathname, '/');
    var r := NonEmptyParts(parts);
    assert forall k :: 0 <= k < |r| ==> r[k] in parts;
    r
  }

  /** Leading slashes do not make segments. */
  lemma SegmentsLeadingSlash(p: string)
    ensures Segments("/" + p) == Segments(p)
  {
    assert ("/" + p)[1..] == p;
  }

  /** A path of one segment, with or without its leading slash. */
  lemma {:induction false} SegmentsSingle(x: string)
    requires x != "" && '/' !in x
    ensures Segments("/" + x) == [x]
  {
    SegmentsLeadingSlash(x);
    SplitNoSeparator(x, '/');
    assert NonEmptyParts([x]) == [x] + NonEmptyParts([x][1..]);
    assert [x][1..] == [];
  }

  /** A path of two segments. */
  lemma SegmentsPair(a: string, b: string)
    requires a != "" && '/' !in a && b != "" && '/' !in b
    ensures Segments("/" + a + "/" + b) == [a, b]
  {
    assert "/" + a + "/" + b == "/" + (a + ("/" + b));
    SegmentsLeadingSlash(a + ("/" + b));
    SplitPrefix(a, "/" + b, '/');
    assert ("/" + b)[1..] == b;
    SplitNoSeparator(b, '/');
    assert Split(a + ("/" + b), '/') == [a, b];
    assert NonEmptyParts([a, b]) == [a] + NonEmptyParts([b]) by { assert [a, b][1..] == [b]; }
    assert NonEmptyParts([b]) == [b] + NonEmptyParts([]) by { assert [b][1..] == []; }
  }

  /** A string without the separator splits into itself. */
  lemma {:induction false} SplitNoSeparator(x: string, sep: char)
    requires sep !in x
    ensures Split(x, sep) == [x]
  {
    if x != [] {
      SplitNoSeparator(x[1..], sep);
      assert [x[0]] + x[1..] == x;
    }
  }

  datatype Crumb = Crumb(name: string, path: string)

  const Home := Crumb("Inicio", "/dashboard")
  const Agents := Crumb("Agentes", "/dashboard")
  const NewAgent := Crumb("Crear Agente", "/agentes/nuevo")
  const ChatCrumb := Crumb("Chat", "/chat")

  /** The four crumbs are told apart by their names. */
  lemma CrumbsDistinct()
    ensures Home != Agents && Home != NewAgent && Home != ChatCrumb
    ensures Agents != NewAgent && Agents != ChatCrumb && NewAgent != ChatCrumb
  {
    assert Home.name[0] == 'I' && Agents.name[0] == 'A' && NewAgent.name[0] == 'C';
    assert ChatCrumb.name[0] == 'C' && NewAgent.name[1] == 'r' && ChatCrumb.name[1] == 'h';
  }

  /** The crumbs for a list of path segments. */
  function Trail(segs: seq<string>): seq<Crumb>
  {
    var agents := if "agentes" in segs then [Agents] + (if "nuevo" in segs then [NewAgent] else []) else [];
    [Home] + agents + (if "chat" in segs then [ChatCrumb] else [])
  }

  /** What the trail holds, segment by segment. */
  lemma TrailFacts(segs: seq<string>)
    ensures var r := Trail(segs);
      && 1 <= |r| <= 4 && r[0] == Home
      && (Agents in r <==> "agentes" in segs)
      && (NewAgent in r <==> "agentes" in segs && "nuevo" in segs)
      && (ChatCrumb in r <==> "chat" in segs)
      && (ChatCrumb in r ==> r[|r| - 1] == ChatCrumb)
      && (NewAgent in r ==> |r| >= 3 && r[1] == Agents && r[2] == NewAgent)
      && (forall k :: 0 < k < |r| ==> r[k] in {Agents, NewAgent, ChatCrumb})
      && (forall i, j :: 0 <= i < j < |r| ==> r[i] != r[j])
  {
    CrumbsDistinct();
    var a, n, c := "agentes" in segs, "nuevo" in segs, "chat" in segs;
    var r := Trail(segs);
    if a && n && c {
      assert r == [Home, Agents, NewAgent, ChatCrumb];
    } else if a && n {
      assert r == [Home, Agents, NewAgent];
    } else if a && c {
      assert r == [Home, Agents, ChatCrumb];
    } else if a {
      assert r == [Home, Agents];
    } else if c {
      assert r == [Home, ChatCrumb];
    } else {
      assert r == [Home];
    }
  }

  /** `getBreadcrumbs`: home first; `Agentes` for an `agentes` segment, and
      `Crear Agente` after it when there is also a `nuevo` one; `Chat` last
      for a `chat` segment; no crumb twice. */
  function Breadcrumbs(pathname: string): (r: seq<Crumb>)
    ensures 1 <= |r| <= 4 && r[0] == Home
    ensures Agents in r <==> "agentes" in Segments(pathname)
    ensures NewAgent in r <==> "agentes" in Segments(pathname) && "nuevo" in Segments(pathname)
    ensures ChatCrumb in r <==> "chat" in Segments(pathname)
    ensures ChatCrumb in r ==> r[|r| - 1] == ChatCrumb
    ensures NewAgent in r ==> exists k :: 0 < k < |r| - 1 && r[k] == Agents && r[k + 1] == NewAgent
    ensures forall k :: 0 < k < |r| ==> r[k] in {Agents, NewAgent, ChatCrumb}
    ensures forall i, j :: 0 <= i < j < |r| ==> r[i] != r[j]
  {
    TrailFacts(Segments(pathname));
    Trail(Segments(pathname))
  }

  /** `getBreadcrumbs` as the header runs it: the trail starts at home and
      grows by successive pushes. */
  method GetBreadcrumbs(pathname: string) returns (crumbs: seq<Crumb>)
    ensures crumbs == Breadcrumbs(pathname)
    ensures 1 <= |crumbs| <= 4 && crumbs[0] == Home
  {
    var paths := Segments(pathname);
    crumbs := [Home];
    if "agentes" in paths {
      crumbs := crumbs + [Agents];
      if "nuevo" in paths {
        crumbs := crumbs + [NewAgent];
      }
    }
    if "chat" in paths {
      crumbs := crumbs + [ChatCrumb];
    }
    assert crumbs == Trail(paths);
  }

  /** The creation page's trail. */
  lemma NewAgentTrail()
    ensures Breadcrumbs("/agentes/nuevo") == [Home, Agents, NewAgent]
  {
    NewAgentSegments();
    NewAgentSegmentsTrail();
  }

  /** The crumbs for those two segments. */
  lemma NewAgentSegmentsTrail()
    ensures Trail(["agentes", "nuevo"]) == [Home, Agents, NewAgent]
  {
  }

  /** The creation page's path has two segments. */
  lemma NewAgentSegments()
    ensures Segments("/agentes/nuevo") == ["agentes", "nuevo"]
  {
    assert "/agentes/nuevo" == "/" + "agentes" + "/" + "nuevo";
    SegmentsPair("agentes", "nuevo");
  }

  /** Splitting a separator-free word followed by a separator and more. */
  lemma {:induction false} SplitPrefix(w: string, rest: string, sep: char)
    requires sep !in w && rest != [] && rest[0] == sep
    ensures Split(w + rest, sep) == [w] + Split(rest[1..], sep)
  {
    if w != [] {
      SplitPrefix(w[1..], rest, sep);
      assert (w + rest)[1..] == w[1..] + rest;
      assert [w[0]] + w[1..] == w;
    } else {
      assert w + rest == rest;
    }
  }

  /** `getPageTitle`. */
  function PageTitle(pathname: string): (r: string)
    ensures pathname == "/dashboard" ==> r == "Dashboard"
    ensures pathname == "/agentes/nuevo" ==> r == "Crear Agente"
    ensures pathname == "/chat" ==> r == "Chat"
    ensures pathname !in {"/dashboard", "/agentes/nuevo", "/chat"} ==> r == "Koonetxa Chats"
  {
    match pathname
    case "/dashboard" => "Dashboard"
    case "/agentes/nuevo" => "Crear Agente"
    case "/chat" => "Chat"
    case _ => "Koonetxa Chats"
  }

  /** On the creation and chat pages the title names the last breadcrumb. */
  lemma TitleIsLastCrumb()
    ensures var b := Breadcrumbs("/agentes/nuevo"); PageTitle("/agentes/nuevo") == b[|b| - 1].name
    ensures var b := Breadcrumbs("/chat"); PageTitle("/chat") == b[|b| - 1].name
  {
    NewAgentTrail();
    ChatTrail();
  }

  /** The chat page's trail. */
  lemma ChatTrail()
    ensures Breadcrumbs("/chat") == [Home, ChatCrumb]
  {
    assert "/chat" == "/" + "chat";
    SegmentsSingle("chat");
    ChatSegmentTrail();
  }

  /** The crumbs for the single segment `chat`. */
  lemma ChatSegmentTrail()
    ensures Trail(["chat"]) == [Home, ChatCrumb]
  {
  }

  /** The header renders nothing without a user or on the landing and
      sign-in pages. */
  predicate HeaderShown(user: Option<User>, pathname: string)
  {
    !(user.None? || pathname == "/" || pathname == "/auth" || pathname == "/landing")
  }

  /** The layout wraps the page in its chrome except on those pages or
      without a user. */
  predicate LayoutChrome(user: Option<User>, pathname: string)
  {
    var isAuthPage := pathname == "/" || pathname == "/auth" || pathname == "/landing";
    !(isAuthPage || user.None?)
  }

  /** The two rules agree: the header appears exactly where the chrome does. */
  lemma HeaderIffChrome(user: Option<User>, pathname: string)
    ensures HeaderShown(user, pathname) <==> LayoutChrome(user, pathname)
    ensures HeaderShown(user, pathname) ==> user.Some? && pathname !in {"/", "/auth", "/landing"}
  {
  }

  /** The value the app context provides. */
  datatype AppContext = AppContext(currentAgentId: Option<string>, sidebarOpen: bool)

  /** `useAppContext`: outside the provider there is no context and it throws. */
  function UseAppContext(context: Option<AppContext>): (r: Result<AppContext>)
    ensures r.Ok? <==> context.Some?
    ensures r.Ok? ==> r.value == context.value
    ensures r.Err? ==> r.message == "useAppContext must be used within AppProvider"
  {
    if context.None? then Err("useAppContext must be used within AppProvider") else Ok(context.value)
  }
}
