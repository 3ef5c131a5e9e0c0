/**
 * The three graders. Each wraps a structured-output model (an oracle here)
 * and turns its free-text `binary_score` into a boolean with one shared rule.
 */
module Graders {
  import opened DataModels
  import Text
  import Generators

  /** The verdict rule: `binary_score.lower() == "yes"`. */
  predicate IsYes(score: string) {
    Text.Lower(score) == "yes"
  }

  /** The rule accepts exactly the three-letter spellings of "yes" in any letter case. */
  lemma {:induction false} IsYesSpellings(score: string)
    ensures IsYes(score) <==>
      |score| == 3 &&
      (score[0] == 'y' || score[0] == 'Y') &&
      (score[1] == 'e' || score[1] == 'E') &&
      (score[2] == 's' || score[2] == 'S')
  {
    if |score| == 3 {
      var l := Text.Lower(score);
      assert l == [l[0], l[1], l[2]];
      assert "yes" == ['y', 'e', 's'];
    }
  }

  /** Concrete consequences: "YES" and "Yes" pass; "y", "yes " and "no" fail. */
  lemma IsYesExamples()
    ensures IsYes("YES") && IsYes("Yes") && IsYes("yes")
    ensures !IsYes("y") && !IsYes("yes ") && !IsYes("no")
  {
    IsYesSpellings("YES");
    IsYesSpellings("Yes");
    IsYesSpellings("yes");
    IsYesSpellings("y");
    IsYesSpellings("yes ");
    IsYesSpellings("no");
  }

  /**
   * `DocumentGrader.grade_document`: the model sees the document's content and
   * the question; the document is relevant when its verdict is "yes".
   */
  predicate GradeDocument(grader: (string, string) -> GradeDocuments, doc: Document, question: string) {
    IsYes(grader(doc.pageContent, question).binaryScore)
  }

  /** `DocumentGrader.filter_documents`: keep the relevant documents. */
  function FilterDocuments(grader: (string, string) -> GradeDocuments, docs: seq<Document>, question: string): (r: seq<Document>)
    ensures |r| <= |docs|
    ensures forall d :: d in r <==> d in docs && GradeDocument(grader, d, question)
    decreases |docs|
  {
    if |docs| == 0 then []
    else
      var rest := FilterDocuments(grader, docs[1..], question);
      if GradeDocument(grader, docs[0], question) then [docs[0]] + rest else rest
  }

  /** `a` is `b` with some elements left out, order kept. */
  predicate IsSubsequence<T(==)>(a: seq<T>, b: seq<T>)
    decreases |b|
  {
    if |a| == 0 then true
    else if |b| == 0 then false
    else (a[0] == b[0] && IsSubsequence(a[1..], b[1..])) || IsSubsequence(a, b[1..])
  }

  /** The filter keeps the original order: its output is a subsequence of its input. */
  lemma {:induction false} FilterKeepsOrder(grader: (string, string) -> GradeDocuments, docs: seq<Document>, question: string)
    ensures IsSubsequence(FilterDocuments(grader, docs, question), docs)
    decreases |docs|
  {
    if |docs| > 0 {
      var rest := FilterDocuments(grader, docs[1..], question);
      FilterKeepsOrder(grader, docs[1..], question);
      if GradeDocument(grader, docs[0], question) {
        var r := [docs[0]] + rest;
        assert r[0] == docs[0] && r[1..] == rest;
      }
    }
  }

  /** Every copy of a relevant document is kept, and no copy of an irrelevant one. */
  lemma {:induction false} FilterKeepsCopies(grader: (string, string) -> GradeDocuments, docs: seq<Document>, question: string)
    ensures forall d ::
              multiset(FilterDocuments(grader, docs, question))[d] ==
              (if GradeDocument(grader, d, question) then multiset(docs)[d] else 0)
    decreases |docs|
  {
    if |docs| > 0 {
      FilterKeepsCopies(grader, docs[1..], question);
      assert docs == [docs[0]] + docs[1..];
      assert multiset(docs) == multiset{docs[0]} + multiset(docs[1..]);
    }
  }

  /**
   * `HallucinationGrader.grade_generation`: the model sees the documents'
   * contents joined by blank lines, and the generation.
   */
  predicate Grounded(grader: (string, string) -> GradeHallucinations, documents: seq<Document>, generation: string) {
    IsYes(grader(Generators.FormatDocs(documents), generation).binaryScore)
  }

  /** Only the documents' contents, in order, reach the groundedness model. */
  lemma GroundedSeesContentsOnly(grader: (string, string) -> GradeHallucinations,
                                 docs1: seq<Document>, docs2: seq<Document>, generation: string)
    requires Generators.PageContents(docs1) == Generators.PageContents(docs2)
    ensures Grounded(grader, docs1, generation) == Grounded(grader, docs2, generation)
  {
  }

  /** `AnswerGrader.grade_answer`: the model sees the question and the generation. */
  predicate AnswersQuestion(grader: (string, string) -> GradeAnswer, question: string, generation: string) {
    IsYes(grader(question, generation).binaryScore)
  }
}
