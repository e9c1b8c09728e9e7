/** The notice list: it fetches knowledge records, keeps them, builds a
    `Name(Email)` selection list from them, and navigates to an article or to
    a topic page when a row or a tag is clicked. */
module NoticeSelectDataList {
  import opened Lwc

  /** Arguments of the remote fetch of knowledge records. */
  datatype KnowledgeRequest = KnowledgeRequest(limitNum: Option<int>)

  const ArticlePageName := "Article_Detail"
  const TopicPathPrefix := "/topic/"

  /** The page a row leads to: the article page under the row's URL name. */
  function RowTarget(urlName: string): (page: PageRef)
    ensures page.KnowledgeArticlePage? && page.pageName == ArticlePageName && page.urlName == urlName
  {
    KnowledgeArticlePage(ArticlePageName, urlName)
  }

  /** The page a topic tag leads to: `/topic/<topic>`, from which the topic
      can be read back. */
  function TopicTarget(topic: string): (page: PageRef)
    ensures page.WebPage?
    ensures |page.url| == |TopicPathPrefix| + |topic|
    ensures page.url[..|TopicPathPrefix|] == TopicPathPrefix && page.url[|TopicPathPrefix|..] == topic
  {
    WebPage(TopicPathPrefix + topic)
  }

  /** Distinct topics lead to distinct pages. */
  lemma TopicTargetInjective(t1: string, t2: string)
    requires TopicTarget(t1) == TopicTarget(t2)
    ensures t1 == t2
  {
  }

  class NoticeSelectDataList {
    var notice: seq<ContactRecord>
    var contactData: seq<ContactRecord>
    var selectList: seq<SelectOption>
    var limit: Option<int>

    constructor (limit: Option<int>)
      ensures this.limit == limit && notice == [] && contactData == [] && selectList == []
    {
      this.limit := limit;
      notice, contactData, selectList := [], [], [];
    }

    /** Connection: the records are requested with the component's limit; no
        state changes until the call settles. */
    method ConnectedCallback() returns (request: KnowledgeRequest)
      ensures request == KnowledgeRequest(limit)
    {
      request := KnowledgeRequest(limit);
    }

    /** The fetch resolved: `notice` and `contactData` are the result, and the
        selection list is reset and then given one option per record, in order. */
    method ConnectedCallbackSucceeded(result: seq<ContactRecord>)
      modifies this`notice, this`contactData, this`selectList
      ensures notice == result && contactData == result
      ensures selectList == ContactOptions(result)
      ensures |selectList| == |result|
    {
      notice := result;
      contactData := result;
      selectList := [];
      for i := 0 to |contactData|
        invariant notice == result && contactData == result
        invariant selectList == ContactOptions(result[..i])
      {
        assert result[..i + 1][..i] == result[..i];
        var c := contactData[i];
        selectList := selectList + [SelectOption(c.Name + "(" + c.Email + ")", c.Id)];
      }
      assert result[..|result|] == result;
    }

    /** The fetch failed: only console output, nothing changes. */
    method ConnectedCallbackFailed()
      ensures unchanged(this)
    {
    }

    /** A row click: navigate to the row's article. */
    method HandleRowAction(urlName: string) returns (effects: seq<Effect>)
      ensures effects == [Navigate(RowTarget(urlName))]
    {
      effects := [Navigate(RowTarget(urlName))];
    }

    /** A topic tag click: navigate to the topic page. */
    method HandleRowTagAction(topic: string) returns (effects: seq<Effect>)
      ensures effects == [Navigate(TopicTarget(topic))]
    {
      var url := TopicPathPrefix + topic;
      effects := [Navigate(WebPage(url))];
    }
  }
}
