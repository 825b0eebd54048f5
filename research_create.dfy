/** The paper submission page (src/app/research/create/page.tsx): the file,
    keyword and co-author lists under edit, the submit rule and the paper
    record built on submit. */
module ResearchCreate {
  import opened Wrappers
  import opened Records
  import opened Seqs
  import opened FormLists
  import Text
  import Tokens
  import Notifications
  import Submission

  const PaperReward: int := 20
  const PaperReason := "論文投稿"

  /** The paper `handleSubmit` builds for `user`. */
  function PaperRecord(u: User, title: string, summary: string, field: string, keywords: seq<string>,
                       files: seq<string>, coAuthors: seq<string>, accessLevel: string,
                       password: string, now: nat): (p: ResearchPaper)
    ensures p.authors == [u.name] + coAuthors
    ensures p.password.Some? <==> accessLevel == "protected"
    ensures p.password.Some? ==> p.password.value == password
    ensures p.downloads == 0 && p.citations == 0
    ensures p.title == title && p.summary == summary && p.field == field && p.accessLevel == accessLevel
    ensures p.keywords == keywords && p.files == files && p.publishedAt == now
  {
    ResearchPaper("paper-" + Text.NatToString(now), title, [u.name] + coAuthors, summary, field, keywords, files,
                  accessLevel, if accessLevel == "protected" then Some(password) else None, now, 0, 0)
  }

  /** The success notification for a paper. */
  function PaperNotice(title: string, paperId: string): (d: Notifications.Draft)
    ensures d.kind == Success && !d.read && d.actionUrl == Some("/research/papers/" + paperId)
    ensures d.title == "論文投稿完了" && d.message == "「" + title + "」の投稿が完了しました"
  {
    Notifications.Draft(Success, "論文投稿完了", "「" + title + "」の投稿が完了しました", false,
                        Some("/research/papers/" + paperId))
  }

  class ResearchPaperForm {
    var files: seq<string>
    var keywords: seq<string>
    var newKeyword: string
    var coAuthors: seq<string>
    var newCoAuthor: string
    var title: string
    /** `formData.abstract`. */
    var summary: string
    var field: string
    var accessLevel: string
    var password: string
    var isLoading: bool

    /** The keyword and co-author lists hold distinct, non-empty, trimmed names. */
    ghost predicate Valid()
      reads this
    {
      WellFormedList(keywords) && WellFormedList(coAuthors)
    }

    constructor ()
      ensures files == [] && keywords == [] && coAuthors == [] && newKeyword == "" && newCoAuthor == ""
      ensures title == "" && summary == "" && field == "" && accessLevel == "public" && password == ""
      ensures !isLoading && Valid()
    {
      files, keywords, coAuthors := [], [], [];
      newKeyword, newCoAuthor := "", "";
      title, summary, field, accessLevel, password := "", "", "", "public", "";
      isLoading := false;
    }

    /** `disabled={isLoading || !title || !field || !abstract}`. */
    predicate SubmitDisabled()
      reads this
    {
      isLoading || title == "" || field == "" || summary == ""
    }

    /** `handleFileUpload`: one path per selected file, appended without a cap;
        nothing happens when no file list is given. */
    method HandleFileUpload(selected: Option<nat>, now: nat)
      modifies this
      ensures selected.None? ==> files == old(files)
      ensures selected.Some? ==> files == old(files) + UploadPaths("/papers/mock-paper-", ".pdf", now, selected.value)
      ensures keywords == old(keywords) && coAuthors == old(coAuthors)
      ensures newKeyword == old(newKeyword) && newCoAuthor == old(newCoAuthor)
      ensures title == old(title) && summary == old(summary) && field == old(field)
      ensures accessLevel == old(accessLevel) && password == old(password) && isLoading == old(isLoading)
    {
      if selected.Some? {
        files := files + UploadPaths("/papers/mock-paper-", ".pdf", now, selected.value);
      }
    }

    /** `removeFile(index)`: drops exactly the file at that position. */
    method RemoveFile(index: int)
      modifies this
      ensures files == RemoveAt(old(files), index)
      ensures keywords == old(keywords) && coAuthors == old(coAuthors)
      ensures newKeyword == old(newKeyword) && newCoAuthor == old(newCoAuthor)
      ensures title == old(title) && summary == old(summary) && field == old(field)
      ensures accessLevel == old(accessLevel) && password == old(password) && isLoading == old(isLoading)
    {
      files := RemoveAt(files, index);
    }

    /** `addKeyword`: the trimmed input is added when new and non-empty, and
        then the input is cleared; otherwise nothing changes. */
    method AddKeyword()
      requires Valid()
      modifies this
      ensures keywords == AddTrimmed(old(keywords), old(newKeyword))
      ensures newKeyword == if Takes(old(keywords), old(newKeyword)) then "" else old(newKeyword)
      ensures files == old(files) && coAuthors == old(coAuthors) && newCoAuthor == old(newCoAuthor)
      ensures Valid()
      ensures title == old(title) && summary == old(summary) && field == old(field)
      ensures accessLevel == old(accessLevel) && password == old(password) && isLoading == old(isLoading)
    {
      AddTrimmedWellFormed(keywords, newKeyword);
      keywords, newKeyword := AddTrimmed(keywords, newKeyword), if Takes(keywords, newKeyword) then "" else newKeyword;
    }

    method RemoveKeyword(keyword: string)
      requires Valid()
      modifies this
      ensures keywords == RemoveAll(old(keywords), keyword)
      ensures files == old(files) && coAuthors == old(coAuthors)
      ensures newKeyword == old(newKeyword) && newCoAuthor == old(newCoAuthor)
      ensures Valid()
      ensures title == old(title) && summary == old(summary) && field == old(field)
      ensures accessLevel == old(accessLevel) && password == old(password) && isLoading == old(isLoading)
    {
      RemoveWellFormed(keywords, keyword);
      keywords := RemoveAll(keywords, keyword);
    }

    /** `addCoAuthor`: the same rule as for keywords. */
    method AddCoAuthor()
      requires Valid()
      modifies this
      ensures coAuthors == AddTrimmed(old(coAuthors), old(newCoAuthor))
      ensures newCoAuthor == if Takes(old(coAuthors), old(newCoAuthor)) then "" else old(newCoAuthor)
      ensures files == old(files) && keywords == old(keywords) && newKeyword == old(newKeyword)
      ensures Valid()
      ensures title == old(title) && summary == old(summary) && field == old(field)
      ensures accessLevel == old(accessLevel) && password == old(password) && isLoading == old(isLoading)
    {
      AddTrimmedWellFormed(coAuthors, newCoAuthor);
      coAuthors, newCoAuthor := AddTrimmed(coAuthors, newCoAuthor), if Takes(coAuthors, newCoAuthor) then "" else newCoAuthor;
    }

    method RemoveCoAuthor(author: string)
      requires Valid()
      modifies this
      ensures coAuthors == RemoveAll(old(coAuthors), author)
      ensures files == old(files) && keywords == old(keywords)
      ensures newKeyword == old(newKeyword) && newCoAuthor == old(newCoAuthor)
      ensures Valid()
      ensures title == old(title) && summary == old(summary) && field == old(field)
      ensures accessLevel == old(accessLevel) && password == old(password) && isLoading == old(isLoading)
    {
      RemoveWellFormed(coAuthors, author);
      coAuthors := RemoveAll(coAuthors, author);
    }

    /** `handleSubmit`: nothing without a user; otherwise builds the paper,
        credits 20 tokens and posts the completion notice linking to it. */
    method HandleSubmit(ledger: Tokens.TokenLedger, center: Notifications.NotificationCenter, now: nat)
      returns (paper: Option<ResearchPaper>)
      requires ledger.auth == center.auth
      modifies this, ledger, ledger.auth, center
      ensures old(ledger.auth.user).None? ==>
                paper.None? && ledger.transactions == old(ledger.transactions) &&
                ledger.auth.user == old(ledger.auth.user) && center.notifications == old(center.notifications)
      ensures old(ledger.auth.user).Some? ==>
                var u := old(ledger.auth.user.value);
                paper == Some(PaperRecord(u, title, summary, field, keywords, files, coAuthors,
                                          accessLevel, password, now)) &&
                ledger.Balance() == old(ledger.Balance()) + PaperReward &&
                ledger.auth.user == Some(u.(tokens := u.tokens + PaperReward)) &&
                ledger.transactions[..] == [Submission.Credit(u, PaperReward, PaperReason, now)] +
                                           old(ledger.transactions[..]) &&
                center.notifications == [Notifications.Stamp(PaperNotice(title, paper.value.id), u.id, now)] +
                                        old(center.notifications)
      ensures files == old(files) && keywords == old(keywords) && coAuthors == old(coAuthors)
      ensures title == old(title) && summary == old(summary) && field == old(field)
      ensures accessLevel == old(accessLevel) && password == old(password)
      ensures newKeyword == old(newKeyword) && newCoAuthor == old(newCoAuthor)
      ensures old(ledger.auth.user).None? ==> isLoading == old(isLoading)
      ensures old(ledger.auth.user).Some? ==> !isLoading
      ensures ledger.lastDailyReward == old(ledger.lastDailyReward) && ledger.auth.fixture == old(ledger.auth.fixture)
      ensures old(ledger.Consistent()) ==> ledger.Consistent()
    {
      if ledger.auth.user.None? {
        return None;
      }
      isLoading := true;
      var u := ledger.auth.user.value;
      var p := PaperRecord(u, title, summary, field, keywords, files, coAuthors, accessLevel, password, now);
      Submission.RewardAndNotify(ledger, center, PaperReward, PaperReason, PaperNotice(title, p.id), now);
      isLoading := false;
      return Some(p);
    }
  }
}
