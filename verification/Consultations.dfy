/** Expert consultations: packages created for a project and the answers recorded on them
    (app/consultation/service.py). */
module Consultations {
  type ProjectId = nat

  datatype Trigger = ByPolicy | ByUser

  datatype Progress = AnswerPending | AnswerRecorded | AnswerApplied

  /** The direction an expert's answer gives; anything but the three known ones is refused. */
  datatype Resolution = Unblock | AdjustScope | Stop | OtherDirection(text: string)

  datatype Answer = Answer(questionKey: string, text: string, resolution: Resolution)

  datatype Consultation = Consultation(trigger: Trigger, progress: Progress, answers: seq<Answer>)

  class ConsultationService {
    var tables: map<ProjectId, seq<Consultation>>

    constructor ()
      ensures tables == map[]
    {
      tables := map[];
    }

    function Of(project: ProjectId): seq<Consultation>
      reads this
    {
      if project in tables then tables[project] else []
    }

    method Create(project: ProjectId, trigger: Trigger)
      modifies this
      ensures tables == old(tables)[project := old(Of(project)) + [Consultation(trigger, AnswerPending, [])]]
    {
      tables := tables[project := Of(project) + [Consultation(trigger, AnswerPending, [])]];
    }

    /** Appends an answer to a package. */
    method RecordAnswer(project: ProjectId, i: nat, answer: Answer)
      requires i < |Of(project)|
      modifies this
      ensures
        var was := old(Of(project));
        var answered := Consultation(was[i].trigger, AnswerRecorded, was[i].answers + [answer]);
        tables == old(tables)[project := was[i := answered]]
    {
      var was := Of(project)[i];
      tables := tables[project := Of(project)[i := Consultation(was.trigger, AnswerRecorded, was.answers + [answer])]];
    }

    method MarkApplied(project: ProjectId, i: nat)
      requires i < |Of(project)|
      modifies this
      ensures tables == old(tables)[project := old(Of(project))[i := old(Of(project))[i].(progress := AnswerApplied)]]
    {
      tables := tables[project := Of(project)[i := Of(project)[i].(progress := AnswerApplied)]];
    }
  }
}
