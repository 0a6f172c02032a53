/**
 * The session list of `watson/app/dashboard/components/Sidebar.tsx`: the sessions loaded
 * from the server and the selected session, which the sidebar changes through its
 * `onSessionChange` callback (it starts a new chat, selects a session, or drops the
 * selection of a session it deleted).
 */
module WatsonSidebar {
  import opened Wrappers

  datatype ChatSession = ChatSession(id: string, title: string, createdAt: string)

  /** `sessions.filter((s) => s.id !== id)`. */
  function Without(sessions: seq<ChatSession>, id: string): (r: seq<ChatSession>)
    ensures |r| <= |sessions|
    ensures forall s :: s in r <==> s in sessions && s.id != id
  {
    if sessions == [] then []
    else (if sessions[0].id != id then [sessions[0]] else []) + Without(sessions[1..], id)
  }

  /** The filter keeps the survivors in their original order. */
  lemma {:induction false} WithoutAppend(a: seq<ChatSession>, b: seq<ChatSession>, id: string)
    ensures Without(a + b, id) == Without(a, id) + Without(b, id)
  {
    if a == [] {
      assert a + b == b;
    } else {
      assert (a + b)[1..] == a[1..] + b;
      WithoutAppend(a[1..], b, id);
    }
  }

  /** A list without any session of that id is left as it is, so deleting twice is deleting once. */
  lemma {:induction false} WithoutAbsent(sessions: seq<ChatSession>, id: string)
    requires forall i :: 0 <= i < |sessions| ==> sessions[i].id != id
    ensures Without(sessions, id) == sessions
  {
    if sessions != [] {
      WithoutAbsent(sessions[1..], id);
    }
  }

  class Sidebar {
    var sessions: seq<ChatSession>
    /** The `currentSessionId` the page holds; `None` is a new, unsaved chat. */
    var currentSessionId: Option<string>

    constructor (currentSessionId: Option<string>)
      ensures sessions == [] && this.currentSessionId == currentSessionId
    {
      sessions := [];
      this.currentSessionId := currentSessionId;
    }

    /** `loadSessions`: `loaded` is the server's list, `None` on a non-ok response or a failure. */
    method LoadSessions(loaded: Option<seq<ChatSession>>)
      modifies this
      ensures sessions == if loaded.Some? then loaded.value else old(sessions)
      ensures currentSessionId == old(currentSessionId)
    {
      if loaded.Some? {
        sessions := loaded.value;
      }
    }

    /** `createNewSession`: drop the selection; the list stays. */
    method CreateNewSession()
      modifies this
      ensures currentSessionId == None && sessions == old(sessions)
    {
      currentSessionId := None;
    }

    /** Clicking a session selects it. */
    method SelectSession(id: string)
      modifies this
      ensures currentSessionId == Some(id) && sessions == old(sessions)
    {
      currentSessionId := Some(id);
    }

    /**
     * `deleteSession(id)`: `confirmed` is the answer to the confirmation dialog and
     * `deleted` whether the `DELETE` request succeeded with an ok response.
     */
    method DeleteSession(id: string, confirmed: bool, deleted: bool)
      modifies this
      ensures !(confirmed && deleted) ==> sessions == old(sessions) && currentSessionId == old(currentSessionId)
      ensures confirmed && deleted ==> sessions == Without(old(sessions), id)
      ensures confirmed && deleted ==>
                currentSessionId == if old(currentSessionId) == Some(id) then None else old(currentSessionId)
    {
      if !confirmed {
        return;
      }
      if deleted {
        sessions := Without(sessions, id);
        if currentSessionId == Some(id) {
          currentSessionId := None;
        }
      }
    }
  }
}
