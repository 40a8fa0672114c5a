/** When a request under review may be decided, queued or noted: the writes of handleNew, handlePending,
    the approver, the denier and the garbage collector. */
module Reviewing {
  import opened Prelude
  import opened SudoTypes
  import opened Lifecycle
  import opened Invariants
  import opened Stability
  import opened Api
  import opened Writes

  /** No teardown is under way for a request still under review. */
  lemma ReviewIsNotHeld(mode: Mode, w: World)
    requires ModeInv(mode, w) && !w.gone
    requires w.last.status.phase == New || w.last.status.phase == Pending
    ensures !mode.SidecarHeld?
  {
  }

  lemma MayReviewCopy(svc: Service, mode: Mode, w0: World, sr: Request, e: Edit, m: ReviewWrite)
    requires sr.status.phase == New || sr.status.phase == Pending
    requires forall w {:trigger Rely(svc, w0, w)} ::
               Rely(svc, w0, w) && w.Shown() == Some(sr) && Inv(svc, w) ==> MayReview(svc, w, e, m)
    ensures WritableCopy(svc, mode, w0, sr, e, Review(m))
  {
    hide Rely, Inv, ModeInv, MayReview, AfterWrite;
    forall w | Rely(svc, w0, w) && w.Shown() == Some(sr) && Inv(svc, w) && ModeInv(mode, w)
      ensures MayWrite(svc, w, e, Review(m)) && ModeInv(mode, AfterWrite(w, e, Review(m)))
    {
      ReviewIsNotHeld(mode, w);
      NotHeld(mode, AfterWrite(w, e, Review(m)));
    }
  }

  predicate EditFits(svc: Service, spec: Spec, e: Edit) {
    e.NoEdit? || (e.Resolve? && ResolvesTo(svc, spec, e.resolution))
  }

  lemma MayDenyNew(svc: Service, mode: Mode, w0: World, sr: Request, e: Edit, m: ReviewWrite)
    requires sr.status.phase == New && !svc.accepted(sr.spec) && EditFits(svc, sr.spec, e) && m.DenyInvalid?
    ensures WritableCopy(svc, mode, w0, sr, e, Review(m))
  {
  }

  lemma MayAutoApprove(svc: Service, mode: Mode, w0: World, sr: Request, e: Edit, m: ReviewWrite)
    requires sr.status.phase == New && svc.accepted(sr.spec) && e.Resolve? && EditFits(svc, sr.spec, e)
    requires svc.gate(sr.spec, e.resolution.image).Some? && m.AutoApprove?
    ensures WritableCopy(svc, mode, w0, sr, e, Review(m))
  {
    hide GenuineResult, JobInv, ExecInv, ResultInv, LinkInv, TrailInv, SecretInv, AfterReview, Rely;
    forall w | Rely(svc, w0, w) && w.Shown() == Some(sr) && Inv(svc, w)
      ensures MayReview(svc, w, e, m)
    {
    }
    MayReviewCopy(svc, mode, w0, sr, e, m);
  }

  /** The token's Secret is there to rebuild the link from. */
  predicate LinkStored(svc: Service, w: World, createdAt: nat, token: TokenRef) {
    && token.secretName != "" && token.secretName in w.tokens && w.tokens[token.secretName].token != ""
    && svc.sha256(w.tokens[token.secretName].token) == token.hash
    && w.tokens[token.secretName].expiresAt >= createdAt + PENDING_REQUEST_TTL
  }

  lemma MayPend(svc: Service, mode: Mode, w0: World, sr: Request, e: Edit, m: ReviewWrite)
    requires sr.status.phase == New && svc.accepted(sr.spec) && e.Resolve? && EditFits(svc, sr.spec, e)
    requires svc.gate(sr.spec, e.resolution.image).None? && m.Pend?
    requires m.token.hash != "" && LinkStored(svc, w0, sr.createdAt, m.token)
    ensures WritableCopy(svc, mode, w0, sr, e, Review(m))
  {
    forall w | Rely(svc, w0, w) && w.Shown() == Some(sr) && Inv(svc, w)
      ensures MayReview(svc, w, e, m)
    {
      assert LinkAlive(svc, w, sr.createdAt, m.token);
      hide Rely;
    }
    MayReviewCopy(svc, mode, w0, sr, e, m);
  }

  /** Before names are minted no Job of ours is there to be held open; nor do others mint. */
  lemma UnmintedFacts(svc: Service, mode: Mode, w0: World, w: World)
    requires Rely(svc, w0, w) && !IsMinted(w0) && Inv(svc, w) && ModeInv(mode, w)
    ensures !IsMinted(w) && !mode.SidecarHeld?
    ensures w.spec == w0.spec && Subset(w0.trail.vetted, w.trail.vetted)
  {
  }

  lemma MayPreApprove(svc: Service, mode: Mode, w0: World, sr: Request, e: Edit, m: ReviewWrite)
    requires sr.status.phase == New && sr.spec == w0.spec && svc.accepted(sr.spec) && EditFits(svc, sr.spec, e)
    requires !IsMinted(w0)
    requires sr.spec.playbook.Some? && m.ApprovePlaybook?
    requires if m.absent then m.targetUid.None? && svc.mayBeAbsent(sr.spec)
             else m.targetUid.Some? && m.targetUid.value in w0.trail.vetted
    ensures Writable(svc, mode, w0, Review(m)) && WritableCopy(svc, mode, w0, sr, e, Review(m))
  {
    hide Inv, Rely, ModeInv, AfterReview;
    forall w | Rely(svc, w0, w) && !w.gone && Inv(svc, w) && ModeInv(mode, w)
      ensures MayReview(svc, w, NoEdit, m) && (w.Shown() == Some(sr) ==> MayReview(svc, w, e, m))
      ensures ModeInv(mode, AfterReview(w, NoEdit, m)) && ModeInv(mode, AfterReview(w, e, m))
    {
      UnmintedFacts(svc, mode, w0, w);
      NotHeld(mode, AfterReview(w, NoEdit, m));
      NotHeld(mode, AfterReview(w, e, m));
    }
  }

  lemma MayExpire(svc: Service, mode: Mode, w0: World, sr: Request)
    requires sr.status.phase == Pending && w0.now >= (sr.createdAt + PENDING_REQUEST_TTL) * SECOND
    ensures WritableCopy(svc, mode, w0, sr, NoEdit, Review(Expire))
  {
    forall w | Rely(svc, w0, w) && w.Shown() == Some(sr) && Inv(svc, w)
      ensures MayReview(svc, w, NoEdit, Expire)
    {
      assert w.now >= w0.now;
      hide Rely;
    }
    MayReviewCopy(svc, mode, w0, sr, NoEdit, Expire);
  }

  /** A decision about a copy that was Pending, by whoever makes it. */
  lemma DecisionMayBeStored(svc: Service, mode: Mode, caller: Caller, w0: World, sr: Request, m: ReviewWrite)
    requires sr.status.phase == Pending
    requires m.Approve? || m.Deny? || (m.Expire? && w0.now >= (sr.createdAt + PENDING_REQUEST_TTL) * SECOND)
    ensures forall w {:trigger Between(svc, caller, w0, w)} ::
              Between(svc, caller, w0, w) && w.Shown() == Some(sr) && Inv(svc, w) && ModeInv(mode, w)
              ==> Enabled(svc, w, Write(NoEdit, Review(m))) && ModeInv(mode, Apply(svc, w, Write(NoEdit, Review(m))))
  {
    forall w | Between(svc, caller, w0, w) && w.Shown() == Some(sr) && Inv(svc, w) && ModeInv(mode, w)
      ensures Enabled(svc, w, Write(NoEdit, Review(m))) && ModeInv(mode, Apply(svc, w, Write(NoEdit, Review(m))))
    {
      assert w.now >= w0.now;
      hide Between, Inv, AfterWrite;
      ReviewIsNotHeld(mode, w);
      NotHeld(mode, AfterWrite(w, NoEdit, Review(m)));
    }
  }

  // ----- Notes -----

  lemma NoteKeepsMode(mode: Mode, w: World, n: Note)
    requires ModeInv(mode, w) && !w.gone
    ensures ModeInv(mode, AfterNote(w, NoEdit, n))
  {
  }

  lemma MayNoteAnytime(svc: Service, mode: Mode, w0: World, n: Note)
    requires !n.Link? && w0.last.status.phase != New
    ensures Writable(svc, mode, w0, Noted(n))
  {
    forall w: World {:trigger Rely(svc, w0, w)} | Rely(svc, w0, w) && !w.gone && Inv(svc, w) && ModeInv(mode, w)
      ensures MayWrite(svc, w, NoEdit, Noted(n)) && ModeInv(mode, AfterWrite(w, NoEdit, Noted(n)))
    {
      hide ModeInv, AfterNote, Inv;
      NoteKeepsMode(mode, w, n);
    }
    hide Rely, Inv, ModeInv, AfterNote;
  }

  // ----- Tokens -----

  lemma MaySend(svc: Service, mode: Mode, w0: World, token: string)
    requires svc.sha256(token) in w0.trail.linked
    ensures Doable(svc, mode, w0, Send(token))
  {
    hide Inv, TwoPhase;
    forall w | Rely(svc, w0, w) && ModeInv(mode, w)
      ensures EffectEnabled(svc, w, Send(token)) && ModeInv(mode, AfterEffect(w, Send(token)))
    {
      assert svc.sha256(token) in w.trail.linked;
      hide Rely;
      FrameKeepsMode(mode, w, AfterEffect(w, Send(token)));
    }
  }

  /** A spent token's Secret may go; so may an expired one. */
  lemma MayDropToken(svc: Service, mode: Mode, caller: Caller, w0: World, name: string)
    requires w0.gone || Decided(w0.last.status.phase)
    ensures forall w {:trigger Between(svc, caller, w0, w)} ::
              Between(svc, caller, w0, w) && Verdict(w, DropToken(name)).Done? && Inv(svc, w) && ModeInv(mode, w)
              ==> EffectEnabled(svc, w, DropToken(name)) && ModeInv(mode, AfterEffect(w, DropToken(name)))
  {
    hide Inv, TwoPhase;
    forall w | Between(svc, caller, w0, w) && Verdict(w, DropToken(name)).Done? && ModeInv(mode, w)
      ensures EffectEnabled(svc, w, DropToken(name)) && ModeInv(mode, AfterEffect(w, DropToken(name)))
    {
      assert !w.gone ==> Decided(w.last.status.phase);
      hide Rely, Reach;
      FrameKeepsMode(mode, w, AfterEffect(w, DropToken(name)));
    }
  }
}
