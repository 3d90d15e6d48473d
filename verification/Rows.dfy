/** The three tables of the store, their rows, and what the store's writes do to them
    (server/public, server/db). SQL is replaced by map operations keyed by primary key. */
module Rows {
  import opened Basics

  datatype Session = Session(id: Id, callID: Id, userID: Id, joinAt: int,
                             unmuted: bool, raisedHand: int, video: bool)
  {
    predicate IsValid() { id != NONE && callID != NONE && userID != NONE && joinAt != 0 }
  }

  datatype Kind = Recording | Transcribing | Captioning

  datatype Job = Job(id: Id, callID: Id, kind: Kind, creatorID: Id, initAt: int,
                     startAt: int, endAt: int, jobID: Id, botConnID: Id, err: string)
  {
    predicate IsValid() { id != NONE && callID != NONE && creatorID != NONE && initAt != 0 }
  }

  datatype Stats = Stats(screenDuration: int, videoDuration: int,
                         hasUsedVideo: bool, hasUsedScreenShare: bool)

  /** Nil and empty maps are one value here: every branch of the source treats them alike. */
  datatype Props = Props(hosts: seq<Id>, rtcdHost: Id, screenID: Id, dismissed: map<Id, bool>,
                         screenStartAt: int, nodeID: Id, participants: set<Id>,
                         hostLocked: Id, videoStartAt: map<Id, int>)

  datatype Call = Call(id: Id, channelID: Id, startAt: int, endAt: int, createAt: int, deleteAt: int,
                       postID: Id, threadID: Id, ownerID: Id, participants: set<Id>,
                       stats: Stats, props: Props)
  {
    predicate IsValid() {
      && id != NONE && channelID != NONE && ownerID != NONE
      && startAt != 0 && createAt != 0 && deleteAt == 0
    }

    function Host(): Id {
      if |props.hosts| == 0 then NONE else props.hosts[0]
    }

    /** The filter of GetActiveCallByChannelID, the channel aside. */
    predicate Active() { endAt == 0 && startAt > 0 && deleteAt == 0 }
  }

  type Sessions = map<Id, Session>

  datatype Store = Store(calls: map<Id, Call>, sessions: Sessions, jobs: map<Id, Job>)

  // ---- writes; an insert fails on an invalid row or a taken primary key ----

  function InsertCall(s: Store, c: Call): Option<Store> {
    if !c.IsValid() || c.id in s.calls then None else Some(s.(calls := s.calls[c.id := c]))
  }

  /** UPDATE writes only the columns that can change after creation. */
  function UpdateCall(s: Store, c: Call): Store {
    if c.id !in s.calls then s else
      s.(calls := s.calls[c.id := s.calls[c.id].(
        endAt := c.endAt, deleteAt := c.deleteAt, threadID := c.threadID, postID := c.postID,
        participants := c.participants, stats := c.stats, props := c.props)])
  }

  function InsertSession(s: Store, u: Session): Option<Store> {
    if !u.IsValid() || u.id in s.sessions then None else Some(s.(sessions := s.sessions[u.id := u]))
  }

  function UpdateSession(s: Store, u: Session): Store {
    if u.id !in s.sessions then s else
      s.(sessions := s.sessions[u.id := s.sessions[u.id].(
        unmuted := u.unmuted, raisedHand := u.raisedHand, video := u.video)])
  }

  function DeleteSession(s: Store, id: Id): Store {
    s.(sessions := s.sessions - {id})
  }

  function UpdateJobRow(jobs: map<Id, Job>, j: Job): map<Id, Job> {
    if j.id !in jobs then jobs else
      jobs[j.id := jobs[j.id].(
        startAt := j.startAt, endAt := j.endAt, jobID := j.jobID, botConnID := j.botConnID, err := j.err)]
  }

  function InsertJobRow(jobs: map<Id, Job>, j: Job): Option<map<Id, Job>> {
    if !j.IsValid() || j.id in jobs then None else Some(jobs[j.id := j])
  }

  function SessionsOf(all: Sessions, callID: Id): Sessions {
    map k | k in all && all[k].callID == callID :: all[k]
  }
}
