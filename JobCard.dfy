/** The portal's job card: salary text, the apply button and the footer's choice of
    buttons. */
module JobCard {
  import opened Wrappers
  import opened Text
  import opened Entities
  import opened Navigation
  import JobDetails

  /** The card's salary text, written out separately from the root details page's and
      the same text for every job. */
  function FormatSalary(job: Job, fmt: int -> string): (text: string)
    ensures text == JobDetails.FormatSalary(Some(job), fmt)
  {
    if Truthy(job.salaryMin) && Truthy(job.salaryMax) then
      "R$ " + fmt(job.salaryMin.value) + " - R$ " + fmt(job.salaryMax.value)
    else if Truthy(job.salaryMin) then "A partir de R$ " + fmt(job.salaryMin.value)
    else "Salário a combinar"
  }

  function JobPath(id: int): (path: string)
    ensures StartsWith(path, "/jobs/") && ParseInt(path[|"/jobs/"|..]) == Some(id)
  {
    var path := "/jobs/" + IntToString(id);
    assert path[|"/jobs/"|..] == IntToString(id);
    IntRoundTrip(id);
    path
  }

  datatype FooterButton = ApplyButton | LoginButton | NoButton

  /** Besides 'Detalhes': the apply button for a candidate, the login button for a
      signed-out visitor, and nothing for other signed-in users. */
  function Footer(isAuthenticated: bool, user: Option<User>): (b: FooterButton)
    ensures b == ApplyButton <==> JobDetails.CanApply(isAuthenticated, user)
    ensures b == LoginButton <==> !isAuthenticated
  {
    if JobDetails.CanApply(isAuthenticated, user) then ApplyButton
    else if !isAuthenticated then LoginButton
    else NoButton
  }

  /** The card's footer and the details page's apply area make the same offer: the
      apply button to a candidate, a way to sign in to a signed-out visitor, and
      nothing to apply with to anyone else. */
  lemma FooterAgreesWithDetailsPage(isAuthenticated: bool, user: Option<User>)
    ensures Footer(isAuthenticated, user) == ApplyButton <==>
      JobDetails.ApplyAreaFor(isAuthenticated, user) == JobDetails.ApplyButton
    ensures Footer(isAuthenticated, user) == LoginButton <==>
      JobDetails.ApplyAreaFor(isAuthenticated, user) == JobDetails.LoginPrompt
    ensures Footer(isAuthenticated, user) == NoButton <==>
      JobDetails.ApplyAreaFor(isAuthenticated, user) == JobDetails.CandidatesOnly
  {
  }

  class Card {
    const job: Job
    var applyModalVisible: bool

    constructor (j: Job)
      ensures job == j && !applyModalVisible
    {
      job := j;
      applyModalVisible := false;
    }

    /** `handleApply`: a signed-out visitor goes to '/login' remembering the job's page,
        another signed-in user goes to the job's page, a candidate gets the form. */
    method HandleApply(isAuthenticated: bool, user: Option<User>) returns (nav: Option<Nav>)
      modifies this
      ensures !isAuthenticated ==> nav == Some(Nav("/login", Some(JobPath(job.id)), false))
      ensures isAuthenticated && !JobDetails.CanApply(isAuthenticated, user) ==> nav == Some(Go(JobPath(job.id)))
      ensures JobDetails.CanApply(isAuthenticated, user) <==> nav.None?
      ensures applyModalVisible == (old(applyModalVisible) || JobDetails.CanApply(isAuthenticated, user))
    {
      if !isAuthenticated {
        return Some(Nav("/login", Some(JobPath(job.id)), false));
      }
      if !(user.Some? && user.value.role == "CANDIDATE") {
        return Some(Go(JobPath(job.id)));
      }
      applyModalVisible := true;
      nav := None;
    }

    /** 'Detalhes' and a click on the card always go to the job's page. */
    method HandleViewDetails() returns (nav: Nav)
      ensures nav == Go(JobPath(job.id))
    {
      nav := Go(JobPath(job.id));
    }
  }
}
