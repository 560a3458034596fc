/**
 * The exam editor of pages/admin/AdminExamManager.tsx. The form is a partial
 * exam whose question list holds question OBJECTS: the per-question edit
 * handlers copy the list shallowly and then assign into one of its objects,
 * so the objects themselves are shared with every earlier copy of the list.
 * The model keeps that sharing: questions are heap objects, options an array.
 */
module ExamAuthoring {

  import opened Wrappers
  import opened Types

  /** A question of the form, edited in place. */
  class QuestionObj {
    const id: string
    var text: string
    const options: array<string>
    var correctIndex: int

    /** The blank question of "+ Add Question": empty text, four empty options, option 0 correct. */
    constructor Blank(newId: string)
      ensures id == newId && text == "" && correctIndex == 0
      ensures fresh(options) && options[..] == ["", "", "", ""]
    {
      id := newId;
      text := "";
      options := new string[4](_ => "");
      correctIndex := 0;
    }
  }

  /** A partial exam: every field may be absent. `Q` is the question representation. */
  datatype Form<Q> = Form(
    id: Option<string>,
    title: Option<string>,
    description: Option<string>,
    price: Option<real>,
    duration: Option<int>,
    qCount: Option<int>,
    status: Option<ExamStatus>,
    questions: Option<seq<Q>>)

  /** The form as the editor holds it. */
  type ExamForm = Form<QuestionObj>

  /** JavaScript truthiness of an optional string: present and not empty. */
  predicate Truthy(s: Option<string>) {
    s.Some? && s.value != ""
  }

  /** The question list of a form, an absent list read as empty (`questions || []`). */
  function QuestionsOf<Q>(f: Form<Q>): seq<Q> {
    f.questions.GetOr([])
  }

  /** Distinct question objects with distinct four-slot option arrays. */
  predicate WellFormed(f: ExamForm) {
    DistinctQuestions(QuestionsOf(f))
  }

  predicate DistinctQuestions(qs: seq<QuestionObj>) {
    && (forall i, j :: 0 <= i < j < |qs| ==> qs[i] != qs[j] && qs[i].options != qs[j].options)
    && (forall i :: 0 <= i < |qs| ==> qs[i].options.Length == 4)
  }

  /** The stored count agrees with the list (`qCount || 0` against `questions || []`). */
  predicate CountMatches<Q>(f: Form<Q>) {
    f.qCount.GetOr(0) == |QuestionsOf(f)|
  }

  /** The form state when the editor first opens. */
  function InitialForm(): ExamForm {
    Form(None, Some(""), Some(""), Some(0.0), Some(60), Some(0), Some(Active), Some([]))
  }

  /** The form "Create Exam" resets to: no id and no description. */
  function CreateExamForm(): ExamForm {
    Form(None, Some(""), None, Some(0.0), Some(60), Some(0), Some(Active), Some([]))
  }

  /** The value of a question object at this moment. */
  function Freeze(q: QuestionObj): Question
    reads q, q.options
    requires q.options.Length == 4
  {
    Question(q.id, q.text, q.options[..], q.correctIndex)
  }

  /** The values of a list of question objects, position by position. */
  function FreezeAll(qs: seq<QuestionObj>): (r: seq<Question>)
    reads set q | q in qs, set q | q in qs :: q.options
    requires forall i :: 0 <= i < |qs| ==> qs[i].options.Length == 4
    ensures |r| == |qs| && forall i :: 0 <= i < |qs| ==> r[i] == Freeze(qs[i])
  {
    if qs == [] then [] else [Freeze(qs[0])] + FreezeAll(qs[1..])
  }

  /**
   * The form as it is serialised for a write (`{...formData}`): every top-level
   * field carried as it is, and every question object read at this moment.
   */
  function Draft(f: ExamForm): (d: Form<Question>)
    reads set q | q in QuestionsOf(f), set q | q in QuestionsOf(f) :: q.options
    requires WellFormed(f)
    ensures d.id == f.id && d.title == f.title && d.description == f.description && d.price == f.price
    ensures d.duration == f.duration && d.qCount == f.qCount && d.status == f.status
    ensures d.questions.Some? <==> f.questions.Some?
    ensures d.questions.Some? ==> |d.questions.value| == |f.questions.value|
    ensures d.questions.Some? ==> forall i :: 0 <= i < |f.questions.value| ==> d.questions.value[i] == Freeze(f.questions.value[i])
  {
    Form(f.id, f.title, f.description, f.price, f.duration, f.qCount, f.status,
         if f.questions.Some? then Some(FreezeAll(f.questions.value)) else None)
  }

  /** The write a save performs. */
  datatype SaveRequest = UpdateExam(examId: string, draft: Form<Question>) | AddExam(draft: Form<Question>)

  /**
   * The save decision: no write without a title; with one, the existing exam is
   * updated when the form has an id and a new exam is added otherwise.
   */
  function SaveRequestFor(d: Form<Question>): (r: Option<SaveRequest>)
    ensures r.None? <==> !Truthy(d.title)
    ensures r.Some? ==> r.value.draft == d
    ensures r.Some? ==> (r.value.UpdateExam? <==> Truthy(d.id))
    ensures r.Some? && r.value.UpdateExam? ==> r.value.examId == d.id.value
  {
    if !Truthy(d.title) then None
    else if Truthy(d.id) then Some(UpdateExam(d.id.value, d))
    else Some(AddExam(d))
  }

  /** A top-level field edit of the form. */
  datatype FieldEdit = SetTitle(title: string) | SetPrice(price: real) | SetDuration(minutes: int) | SetStatus(status: ExamStatus)

  class ExamManager {
    var form: ExamForm
    var isEditing: bool

    function Qs(): seq<QuestionObj>
      reads this
    {
      QuestionsOf(form)
    }

    predicate Valid()
      reads this
    {
      WellFormed(form)
    }

    constructor ()
      ensures form == InitialForm() && !isEditing && Valid()
    {
      form := InitialForm();
      isEditing := false;
    }

    /** "Create Exam": the form is reset to the creation defaults and the editor opens. */
    method StartCreate()
      modifies this
      ensures form == CreateExamForm() && isEditing && Valid()
      ensures form.id == None && form.title == Some("") && form.questions == Some([]) && form.qCount == Some(0)
      ensures form.price == Some(0.0) && form.duration == Some(60) && form.status == Some(Active)
      ensures CountMatches(form)
    {
      form := CreateExamForm();
      isEditing := true;
    }

    /** "Edit": the form becomes the listed exam itself (its question objects are shared). */
    method StartEdit(listed: ExamForm)
      requires WellFormed(listed)
      modifies this
      ensures form == listed && isEditing && Valid()
    {
      form := listed;
      isEditing := true;
    }

    /** "Cancel": the editor closes; the form keeps its contents. */
    method Cancel()
      modifies this`isEditing
      ensures !isEditing
    {
      isEditing := false;
    }

    /** A top-level field edit replaces that field and nothing else. */
    method EditField(edit: FieldEdit)
      requires Valid()
      modifies this`form
      ensures Valid() && Qs() == old(Qs())
      ensures form == match edit
        case SetTitle(t) => old(form).(title := Some(t))
        case SetPrice(p) => old(form).(price := Some(p))
        case SetDuration(m) => old(form).(duration := Some(m))
        case SetStatus(s) => old(form).(status := Some(s))
    {
      match edit {
        case SetTitle(t) => form := form.(title := Some(t));
        case SetPrice(p) => form := form.(price := Some(p));
        case SetDuration(m) => form := form.(duration := Some(m));
        case SetStatus(s) => form := form.(status := Some(s));
      }
      assert QuestionsOf(form) == QuestionsOf(old(form));
    }

    /**
     * "+ Add Question": exactly one blank question is appended, the existing
     * questions are kept, and the count goes up by one (an absent count read as 0).
     */
    method AddQuestion(newId: string) returns (q: QuestionObj)
      requires Valid()
      modifies this`form
      ensures Valid() && fresh(q) && fresh(q.options)
      ensures Qs() == old(Qs()) + [q]
      ensures q.id == newId && q.text == "" && q.options[..] == ["", "", "", ""] && q.correctIndex == 0
      ensures form == old(form).(questions := Some(old(Qs()) + [q]), qCount := Some(old(form.qCount).GetOr(0) + 1))
      ensures old(CountMatches(form)) ==> CountMatches(form)
    {
      q := new QuestionObj.Blank(newId);
      var qs := QuestionsOf(form) + [q];
      form := form.(questions := Some(qs), qCount := Some(form.qCount.GetOr(0) + 1));
    }

    /**
     * Question text edit. The new list holds the same objects as the old one,
     * so the old list also reads the new text.
     */
    method SetQuestionText(qIdx: int, value: string)
      requires Valid() && 0 <= qIdx < |Qs()|
      modifies this`form, Qs()[qIdx]
      ensures Valid() && form == old(form)
      ensures old(Qs())[qIdx].text == value
      ensures Qs()[qIdx].correctIndex == old(Qs()[qIdx].correctIndex)
      ensures Qs()[qIdx].options[..] == old(Qs()[qIdx].options[..])
      ensures forall i :: 0 <= i < |Qs()| && i != qIdx ==> Freeze(Qs()[i]) == old(Freeze(Qs()[i]))
    {
      var qs := QuestionsOf(form);
      qs[qIdx].text := value;
      form := form.(questions := Some(qs));
    }

    /** Correct-answer radio: option `oIdx` of question `qIdx` becomes the correct one. */
    method SetCorrectIndex(qIdx: int, oIdx: int)
      requires Valid() && 0 <= qIdx < |Qs()| && 0 <= oIdx < 4
      modifies this`form, Qs()[qIdx]
      ensures Valid() && form == old(form)
      ensures old(Qs())[qIdx].correctIndex == oIdx && 0 <= Qs()[qIdx].correctIndex < Qs()[qIdx].options.Length
      ensures Qs()[qIdx].text == old(Qs()[qIdx].text)
      ensures Qs()[qIdx].options[..] == old(Qs()[qIdx].options[..])
      ensures forall i :: 0 <= i < |Qs()| && i != qIdx ==> Freeze(Qs()[i]) == old(Freeze(Qs()[i]))
    {
      var qs := QuestionsOf(form);
      qs[qIdx].correctIndex := oIdx;
      form := form.(questions := Some(qs));
    }

    /** Option text edit: slot `oIdx` of question `qIdx` is overwritten in place. */
    method SetOption(qIdx: int, oIdx: int, value: string)
      requires Valid() && 0 <= qIdx < |Qs()| && 0 <= oIdx < 4
      modifies this`form, Qs()[qIdx].options
      ensures Valid() && form == old(form)
      ensures old(Qs())[qIdx].options[..] == old(Qs()[qIdx].options[..])[oIdx := value]
      ensures Qs()[qIdx].text == old(Qs()[qIdx].text) && Qs()[qIdx].correctIndex == old(Qs()[qIdx].correctIndex)
      ensures forall i :: 0 <= i < |Qs()| && i != qIdx ==> Freeze(Qs()[i]) == old(Freeze(Qs()[i]))
    {
      var qs := QuestionsOf(form);
      qs[qIdx].options[oIdx] := value;
      form := form.(questions := Some(qs));
    }

    /**
     * "Save Exam": no write without a title; otherwise update or add the serialised
     * form, and close the editor when the write succeeds.
     */
    method Save(writeSucceeded: bool) returns (request: Option<SaveRequest>)
      requires Valid()
      modifies this`isEditing
      ensures request == SaveRequestFor(Draft(form))
      ensures request.None? ==> isEditing == old(isEditing)
      ensures request.Some? ==> isEditing == (old(isEditing) && !writeSucceeded)
    {
      request := SaveRequestFor(Draft(form));
      if request.Some? && writeSucceeded {
        isEditing := false;
      }
    }
  }
}
