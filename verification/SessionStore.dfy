/** The shared store of live sessions: objects updated in place, looked up by id. */
module SessionStores {
  import opened Base
  import opened Sessions

  class SessionStore {
    var sessions: map<Id, Session>

    ghost predicate Valid()
      reads this
    {
      forall id :: id in sessions ==> sessions[id].id == id
    }

    ghost function Objects(): set<Session>
      reads this
    {
      sessions.Values
    }

    ghost function Data(): map<Id, SessionData>
      reads this, Objects()
    {
      map id | id in sessions :: sessions[id].Data()
    }

    constructor ()
      ensures Valid() && Objects() == {} && Data() == map[]
    {
      sessions := map[];
    }

    method CreateSession(id: Id, source: Source, context: Context) returns (created: Option<Event>)
      requires Valid()
      modifies this
      ensures Valid() && fresh(Objects() - old(Objects()))
      ensures created.None? <==> id in old(Data())
      ensures created.None? ==> Data() == old(Data())
      ensures created.Some? ==>
                Data() == old(Data())[id := NewSession(id, source, context)] && created.value == NewSession(id, source, context).CreatedEvent()
    {
      if id in sessions {
        return None;
      }
      var session := new Session(id, source, context);
      created := Some(session.Data().CreatedEvent());
      sessions := sessions[id := session];
    }

    /** Changing one session's object leaves the others alone. */
    twostate lemma OnlyOne(id: Id)
      requires old(Valid()) && Valid() && sessions == old(sessions) && id in sessions
      requires forall i :: i in sessions && i != id ==> unchanged(sessions[i])
      ensures Data() == old(Data())[id := sessions[id].Data()]
    {
    }

    method UpdatePrompt(id: Id, prompt: string, echo: bool, clearError: bool) returns (updated: Option<Event>)
      requires Valid()
      modifies Objects()
      ensures Valid() && Objects() == old(Objects())
      ensures updated.None? <==> id !in old(Data())
      ensures updated.None? ==> Data() == old(Data())
      ensures updated.Some? ==>
                var d := old(Data())[id].SetPrompt(prompt, echo, clearError);
                Data() == old(Data())[id := d] && updated.value == d.UpdatedEvent()
    {
      if id !in sessions {
        return None;
      }
      var session := sessions[id];
      session.SetPrompt(prompt, echo, clearError);
      OnlyOne(id);
      updated := Some(session.Data().UpdatedEvent());
    }

    method UpdateError(id: Id, error: string) returns (updated: Option<Event>)
      requires Valid()
      modifies Objects()
      ensures Valid() && Objects() == old(Objects())
      ensures updated.None? <==> id !in old(Data())
      ensures updated.None? ==> Data() == old(Data())
      ensures updated.Some? ==>
                var d := old(Data())[id].SetError(error);
                Data() == old(Data())[id := d] && updated.value == d.UpdatedEvent()
    {
      if id !in sessions {
        return None;
      }
      var session := sessions[id];
      session.SetError(error);
      OnlyOne(id);
      updated := Some(session.Data().UpdatedEvent());
    }

    method UpdateInfo(id: Id, info: string) returns (updated: Option<Event>)
      requires Valid()
      modifies Objects()
      ensures Valid() && Objects() == old(Objects())
      ensures updated.None? <==> id !in old(Data())
      ensures updated.None? ==> Data() == old(Data())
      ensures updated.Some? ==>
                var d := old(Data())[id].SetInfo(info);
                Data() == old(Data())[id := d] && updated.value == d.UpdatedEvent()
    {
      if id !in sessions {
        return None;
      }
      var session := sessions[id];
      session.SetInfo(info);
      OnlyOne(id);
      updated := Some(session.Data().UpdatedEvent());
    }

    method UpdatePinentryRetry(id: Id, cur: int, max: int) returns (done: bool)
      requires Valid()
      modifies Objects()
      ensures Valid() && Objects() == old(Objects())
      ensures done <==> id in old(Data()) && old(Data())[id].source == Pinentry
      ensures Data() == if done then old(Data())[id := old(Data())[id].SetPinentryRetry(cur, max)] else old(Data())
    {
      if id !in sessions || sessions[id].source != Pinentry {
        return false;
      }
      sessions[id].SetPinentryRetry(cur, max);
      OnlyOne(id);
      done := true;
    }

    method CloseSession(id: Id, result: Result) returns (closed: Option<Event>)
      requires Valid()
      modifies this, Objects()
      ensures Valid() && Objects() <= old(Objects())
      ensures closed.None? <==> id !in old(Data())
      ensures closed.None? ==> Data() == old(Data())
      ensures closed.Some? ==>
                Data() == old(Data()) - {id} && closed.value == old(Data())[id].Close(result).ClosedEvent()
    {
      if id !in sessions {
        return None;
      }
      var session := sessions[id];
      session.Close(result);
      OnlyOne(id);
      closed := Some(session.Data().ClosedEvent());
      sessions := sessions - {id};
    }

    predicate Empty()
      reads this
    {
      sessions == map[]
    }

    lemma EmptyData()
      ensures Data() == map[] <==> Empty()
      ensures Data().Keys == sessions.Keys
    {
    }

    lemma KeyedById()
      requires Valid()
      ensures forall id :: id in Data() ==> Data()[id].id == id
    {
    }

    /** What callers of `getSession` look at. */
    function GetSource(id: Id): (source: Option<Source>)
      reads this, Objects()
      ensures source == if id in Data() then Some(Data()[id].source) else None
    {
      if id in sessions then Some(sessions[id].source) else None
    }
  }
}
