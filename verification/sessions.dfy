/** `UserSession`: one user's connection interval, either end of which may still be
    unknown. The mutable Java bean becomes an immutable value; each setter returns
    the updated copy. */
module Sessions {
  import opened Optional
  import opened TimeOfDay

  datatype Session = Session(userId: string, startTime: Option<Time>, endTime: Option<Time>)

  /** `new UserSession(userId)`: neither time is known yet. */
  function NewSession(userId: string): (s: Session)
    ensures s.userId == userId && s.startTime.None? && s.endTime.None?
  {
    Session(userId, None, None)
  }

  /** `new UserSession(userId, startTime, endTime)`. */
  function MakeSession(userId: string, startTime: Option<Time>, endTime: Option<Time>): (s: Session)
    ensures s.userId == userId && s.startTime == startTime && s.endTime == endTime
  {
    Session(userId, startTime, endTime)
  }

  /** `setUserId`: only the user changes. */
  function SetUserId(s: Session, userId: string): (r: Session)
    ensures r.userId == userId && r.startTime == s.startTime && r.endTime == s.endTime
  {
    s.(userId := userId)
  }

  /** `setStartTime`: only the start changes. */
  function SetStartTime(s: Session, startTime: Option<Time>): (r: Session)
    ensures r.startTime == startTime && r.userId == s.userId && r.endTime == s.endTime
  {
    s.(startTime := startTime)
  }

  /** `setEndTime`: only the end changes. */
  function SetEndTime(s: Session, endTime: Option<Time>): (r: Session)
    ensures r.endTime == endTime && r.userId == s.userId && r.startTime == s.startTime
  {
    s.(endTime := endTime)
  }

  /** The three-argument constructor is the one-argument one followed by both setters,
      in either order. */
  lemma ConstructorsAgree(userId: string, startTime: Option<Time>, endTime: Option<Time>)
    ensures MakeSession(userId, startTime, endTime)
         == SetEndTime(SetStartTime(NewSession(userId), startTime), endTime)
         == SetStartTime(SetEndTime(NewSession(userId), endTime), startTime)
  {
  }

  predicate HasStart(s: Session) {
    s.startTime.Some?
  }

  predicate HasEnd(s: Session) {
    s.endTime.Some?
  }

  /** Still waiting for its End. */
  predicate IsOpen(s: Session) {
    s.endTime.None?
  }
}
