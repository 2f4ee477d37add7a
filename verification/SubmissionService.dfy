// Submitting a repository: validate, save, publish, accept or reject.
module SubmissionService {
  import opened Common
  import opened Dispatch
  import opened DispatchSafety
  import Safety = DispatchSafety
  import opened DispatchCode
  import UrlValidator

  datatype SubmitStatus = ACCEPTED | INVALID_REQUEST | BACKPRESSURED | INTERNAL_ERROR

  // Where an exception, if any, interrupts the submission.
  datatype Interruption = Never | BeforeSaving | BeforePublishing | AfterPublishing

  class RepositoryService {
    // `id` is the generated job id.
    method SubmitRepository(cl: Cluster, url: string, id: string, thrown: Interruption) returns (status: SubmitStatus)
      requires cl.Valid() && id !in cl.now.jobs && id !in cl.now.subs
      modifies cl.Parts()
      ensures cl.Valid() && id !in cl.now.subs
      // An unacceptable URL is refused, and an early exception answered, before anything is
      // touched; in every other case the row is saved, with the URL as submitted.
      ensures status == INVALID_REQUEST <==> UrlValidator.Canonical(url).None?
      ensures status != INVALID_REQUEST && thrown == BeforeSaving ==> status == INTERNAL_ERROR
      ensures
        if status == INVALID_REQUEST || thrown == BeforeSaving
        then cl.now == old(cl.now) && cl.labels == old(cl.labels)
        else id in cl.now.jobs && cl.now.jobs[id].url == url
      // An exception before publishing leaves a QUEUED row without a message.
      ensures status != INVALID_REQUEST && thrown == BeforePublishing ==>
        status == INTERNAL_ERROR && cl.now.jobs[id].status == QUEUED && !Published(cl.now, id)
      // Otherwise the answer is what the last command came to: accepted if and only if the
      // XADD was answered, unless an exception hides that; and else refused for a reason.
      ensures status != INVALID_REQUEST && (thrown == Never || thrown == AfterPublishing) ==>
        if cl.labels != [] && cl.Last() == SubAdd(id, Done)
        then status == (if thrown == Never then ACCEPTED else INTERNAL_ERROR) && Kept(cl, id)
        else status == BACKPRESSURED && Refused(cl, id)
    {
      var canonical := UrlValidator.CanonicalCloneUrl(url);
      if canonical.None? { return INVALID_REQUEST; }
      if thrown == BeforeSaving { return INTERNAL_ERROR; }

      SaveJob(cl, url, id);
      if thrown == BeforePublishing {
        Abandon(cl, id);
        return INTERNAL_ERROR;
      }
      var published := cl.publisherQueue.PublishJob(cl, id);
      if !published { return BACKPRESSURED; }
      cl.Guaranteed();
      return if thrown == AfterPublishing then INTERNAL_ERROR else ACCEPTED;
    }

    // The job is in the stream, and from then on is not lost.
    ghost predicate Kept(cl: Cluster, id: string)
      reads cl
    {
      && id in cl.now.jobs && Published(cl.now, id)
      && (Terminal(cl.now.jobs[id].status) || exists i :: Safety.Kept(cl.now, id, i))
    }

    method SaveJob(cl: Cluster, url: string, id: string)
      requires cl.Valid() && id !in cl.now.jobs && id !in cl.now.subs
      modifies cl.Parts()
      ensures SubmissionAt(cl, id, Ensuring)
      ensures id in cl.now.jobs && cl.now.jobs[id].url == url && cl.now.jobs[id].status == QUEUED
    {
      var createdAt: int := *;
      cl.repository.Save(id, Job(url, QUEUED, createdAt, None, None));
      cl.Record(Save(id, url, createdAt));
    }

    method Abandon(cl: Cluster, id: string)
      requires SubmissionAt(cl, id, Ensuring) && id in cl.now.jobs && cl.now.jobs[id].status == QUEUED
      modifies cl.Parts()
      ensures cl.Valid() && id !in cl.now.subs
      ensures id in cl.now.jobs && cl.now.jobs[id] == old(cl.now).jobs[id] && !Published(cl.now, id)
    {
      cl.Guaranteed();
      cl.Record(SubCrash(id));
    }
  }
}
