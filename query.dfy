/** The search-query builders of rexos/query.go: each appends a fixed path and query-string
    key to a base URL and inserts its arguments verbatim, with no escaping. */
module Query {
  const FindByKey := "/search/findByKey?key="
  const FindByUrn := "/search/findByUrn?urn="
  const FindByParent := "/search/findAllByParentReferenceAndCategory?parentReference="
  const CategoryParam := "&category="
  const PageParam := "?page="

  function QueryFindByKey(base: string, key: string): (q: string)
    ensures |q| == |base| + |FindByKey| + |key|
    ensures q[..|base|] == base && q[|q| - |key|..] == key
    ensures q[|base|..|base| + |FindByKey|] == FindByKey
  {
    base + FindByKey + key
  }

  function QueryFindByUrn(base: string, urn: string): (q: string)
    ensures |q| == |base| + |FindByUrn| + |urn|
    ensures q[..|base|] == base && q[|q| - |urn|..] == urn
    ensures q[|base|..|base| + |FindByUrn|] == FindByUrn
  {
    base + FindByUrn + urn
  }

  function QueryFindByParentReferenceAndCategory(base: string, parent: string, category: string): (q: string)
    ensures |q| == |base| + |FindByParent| + |parent| + |CategoryParam| + |category|
    ensures q[..|base|] == base && q[|q| - |category|..] == category
    ensures q[|base|..|base| + |FindByParent|] == FindByParent
    ensures q[|base| + |FindByParent|..|base| + |FindByParent| + |parent|] == parent
    ensures q[|base| + |FindByParent| + |parent|..|q| - |category|] == CategoryParam
  {
    base + FindByParent + parent + CategoryParam + category
  }

  function QueryGetPage(base: string, page: string): (q: string)
    ensures |q| == |base| + |PageParam| + |page|
    ensures q[..|base|] == base && q[|q| - |page|..] == page
    ensures q[|base|..|base| + |PageParam|] == PageParam
  {
    base + PageParam + page
  }

  /** For a known base, each builder is injective in its arguments: the query determines them. */
  lemma QueriesDetermineArguments(base: string, a: string, b: string)
    ensures QueryFindByKey(base, a) == QueryFindByKey(base, b) ==> a == b
    ensures QueryFindByUrn(base, a) == QueryFindByUrn(base, b) ==> a == b
    ensures QueryGetPage(base, a) == QueryGetPage(base, b) ==> a == b
  {
    if QueryFindByKey(base, a) == QueryFindByKey(base, b) {
      assert a == QueryFindByKey(base, a)[|base| + |FindByKey|..];
    }
    if QueryFindByUrn(base, a) == QueryFindByUrn(base, b) {
      assert a == QueryFindByUrn(base, a)[|base| + |FindByUrn|..];
    }
    if QueryGetPage(base, a) == QueryGetPage(base, b) {
      assert a == QueryGetPage(base, a)[|base| + |PageParam|..];
    }
  }

  /** Without escaping, the parent-and-category query is ambiguous: a parent that carries
      `&category=` reads the same as a shorter parent with a longer category. */
  lemma ParentCategoryAmbiguous(base: string, parent: string, middle: string, category: string)
    ensures (parent + CategoryParam + middle, category) != (parent, middle + CategoryParam + category)
    ensures QueryFindByParentReferenceAndCategory(base, parent + CategoryParam + middle, category)
         == QueryFindByParentReferenceAndCategory(base, parent, middle + CategoryParam + category)
  {
  }
}
