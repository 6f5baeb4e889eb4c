/** What a subscriber's `?since=` may be answered with. */
module Resume {
  import opened FeedEvents

  datatype Verdict = ResumeFrom | ResumeLive | ResumeAhead | ResumeExpired

  datatype Window = Window(confirmed: Lsn, haveSlot: bool, walEnd: Lsn, live: bool, floor: Lsn)

  function JudgeResume(since: Lsn, w: Window): Verdict {
    if since == 0 then ResumeLive
    else if w.walEnd != 0 && since > w.walEnd then ResumeAhead
    else if w.live then
      if w.floor == 0 || since < w.floor then ResumeExpired else ResumeLive
    else if !w.haveSlot || since < w.confirmed then ResumeExpired
    else ResumeFrom
  }
}
