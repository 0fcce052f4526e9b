/** The two requests a caller may make of an attachment row: what they bind, when they are refused, and that
    repeating them is harmless. */
module Requests {
  import opened Text
  import opened Attachments
  import opened Store
  import Uuid

  /** A Pod identity a caller may give. */
  predicate NamesPod(q: ConfirmRequest) { 1 <= |q.podUID| <= 128 && IsLabel(q.podName) && q.expectedVersion >= 1 }

  /** A label starts and ends with a letter or digit, and has hyphens only in between. */
  lemma LabelsExactly(s: string)
    ensures IsLabel(s) ==> 1 <= |s| <= 63 && s[0] != '-' && s[|s| - 1] != '-'
    ensures IsLabel(s) ==> forall i :: 0 <= i < |s| ==> s[i] == '-' || '0' <= s[i] <= '9' || 'a' <= s[i] <= 'z'
    ensures 1 <= |s| <= 63 && (forall i :: 0 <= i < |s| ==> '0' <= s[i] <= '9' || 'a' <= s[i] <= 'z') ==> IsLabel(s)
  {
  }

  /** A Pod is confirmed anew exactly when it is well named, placed where the attachment is, the row is still reserved
      without any Pod, and the caller has seen its current version. */
  lemma ConfirmsExactly(r: Row, q: ConfirmRequest)
    requires r.att.podUID == "" || r.att.podUID != q.podUID || r.att.podName != q.podName
    ensures Confirm(r, q).Accepted? <==>
              && NamesPod(q) && q.clusterID == r.att.identity.clusterID && q.namespace == r.att.identity.namespace
              && r.att.podUID == "" && r.att.confirmUID == "" && r.att.state == Reserved && r.att.version == q.expectedVersion
    ensures Confirm(r, q).Accepted? ==>
              var s := Confirm(r, q).row;
              && s.att.podUID == q.podUID && s.att.confirmUID == q.podUID && s.att.podName == q.podName
              && s.att.version == r.att.version + 1 && s.lease == None && s.att.state == r.att.state
              && s.blocked == r.blocked && s.relations == r.relations && s.epoch == r.epoch
  {
  }

  /** What is refused, and as what. */
  lemma ConfirmRefusals(r: Row, q: ConfirmRequest)
    ensures !NamesPod(q) <==> Confirm(r, q) == Refused(InvalidArgument)
    ensures NamesPod(q) && (q.clusterID != r.att.identity.clusterID || q.namespace != r.att.identity.namespace)
            <==> Confirm(r, q) == Refused(PlacementMismatch)
    ensures Confirm(r, q) == Refused(VersionConflict) ==> r.att.version != q.expectedVersion
    ensures Confirm(r, q) == Refused(AttachmentConflict) ==> r.att.podUID != "" || r.att.confirmUID != "" || r.att.state != Reserved
  {
  }

  /** Confirming again, with whatever version, changes nothing more, also if the worker found the Pod first. */
  lemma ConfirmTwice(r: Row, q: ConfirmRequest, again: ConfirmRequest)
    requires Confirm(r, q).Accepted? && again.expectedVersion >= 1
    requires again == q.(expectedVersion := again.expectedVersion)
    ensures Confirm(Confirm(r, q).row, again) == Accepted(Confirm(r, q).row)
  {
  }

  /** A release is recorded exactly once, for a finalization identity in printed form and the current version. */
  lemma ReleasesExactly(r: Row, q: ReleaseRequest)
    requires r.att.finalizationID == ""
    ensures Release(r, q).Accepted? <==>
              Uuid.IsCanonical(q.finalizationID) && q.expectedVersion >= 1 && r.att.version == q.expectedVersion
    ensures Release(r, q).Accepted? ==>
              var s := Release(r, q).row;
              && s.att.finalizationID == q.finalizationID && s.att.state == Releasing && s.att.version == r.att.version + 1
              && s.lease == None && s.att.podUID == r.att.podUID && s.att.confirmUID == r.att.confirmUID
              && s.blocked == r.blocked && s.relations == r.relations && s.epoch == r.epoch
  {
  }

  /** Afterwards the same identity is accepted without effect and any other is a conflict. */
  lemma ReleaseAgain(r: Row, q: ReleaseRequest)
    requires r.att.finalizationID != "" && Uuid.IsCanonical(q.finalizationID) && q.expectedVersion >= 1
    ensures Release(r, q) == if q.finalizationID == r.att.finalizationID then Accepted(r) else Refused(AttachmentConflict)
  {
  }

  /** A request that changes the row fences off every claim made before it. */
  lemma RequestsFenceClaims(r: Row, s: Row, w: Work)
    requires (exists q :: Confirm(r, q) == Accepted(s)) || (exists q :: Release(r, q) == Accepted(s))
    requires s != r && w.attachment.version <= r.att.version
    ensures !Fenced(s, w)
  {
  }
}
