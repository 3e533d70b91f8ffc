/** Workshops: creation under a unique title, the partial update, removal,
    and the past/upcoming listings relative to the current instant. */
module WorkshopService {
  import opened Common
  import opened Store

  /** `create` does not throw: it answers with the stored workshop or with
      an object carrying an error message. */
  datatype CreateReply = Created(workshop: Workshop) | ErrorReply(error: string)

  const DuplicateTitle := "A workshop with this title already exists."

  datatype CreateOutcome = CreateOutcome(reply: CreateReply, workshops: map<Id, Workshop>)

  predicate TitleTaken(workshops: map<Id, Workshop>, title: string) {
    exists id :: id in workshops && workshops[id].title == title
  }

  /** `create`; `id` is the identifier the database assigns. */
  function CreateWorkshop(workshops: map<Id, Workshop>, data: Workshop, id: Id): (o: CreateOutcome)
    requires id !in workshops
    ensures TitleTaken(workshops, data.title) <==> o.reply == ErrorReply(DuplicateTitle)
    ensures o.reply.ErrorReply? ==> o.workshops == workshops
    ensures o.reply.Created? ==> o.reply.workshop == data && o.workshops == workshops[id := data]
  {
    if TitleTaken(workshops, data.title) then CreateOutcome(ErrorReply(DuplicateTitle), workshops)
    else CreateOutcome(Created(data), workshops[id := data])
  }

  /** Creation keeps titles unique, and the new workshop is the only one
      holding its title. */
  lemma {:induction false} CreateKeepsTitlesUnique(workshops: map<Id, Workshop>, data: Workshop, id: Id)
    requires id !in workshops && UniqueTitles(workshops)
    ensures var o := CreateWorkshop(workshops, data, id);
      && UniqueTitles(o.workshops)
      && (o.reply.Created? ==> forall other :: other in o.workshops && o.workshops[other].title == data.title ==> other == id)
  {
    var o := CreateWorkshop(workshops, data, id);
    if o.reply.Created? {
      assert forall other :: other in workshops ==> workshops[other].title != data.title;
    }
  }

  /** What a caller passes to `update`: `mentor` is required, every other
      field may be left out and then keeps its value. */
  datatype UpdateWorkshopDto = UpdateWorkshopDto(
    title: Option<string>,
    description: Option<string>,
    mentor: string,
    date: Option<Millis>,
    time: Option<string>,
    kind: Option<WorkshopType>,
    location: Option<string>,
    onlineLink: Option<string>)

  /** The fields given replace the stored ones; the rest stay. */
  function ApplyUpdate(w: Workshop, dto: UpdateWorkshopDto): (r: Workshop)
    ensures r.title == dto.title.GetOr(w.title) && r.description == dto.description.GetOr(w.description)
    ensures r.mentor == dto.mentor && r.date == dto.date.GetOr(w.date) && r.time == dto.time.GetOr(w.time)
    ensures r.kind == dto.kind.GetOr(w.kind)
    ensures r.location == (if dto.location.Some? then dto.location else w.location)
    ensures r.onlineLink == (if dto.onlineLink.Some? then dto.onlineLink else w.onlineLink)
  {
    Workshop(
      dto.title.GetOr(w.title), dto.description.GetOr(w.description), dto.mentor,
      dto.date.GetOr(w.date), dto.time.GetOr(w.time), dto.kind.GetOr(w.kind),
      if dto.location.Some? then dto.location else w.location,
      if dto.onlineLink.Some? then dto.onlineLink else w.onlineLink)
  }

  datatype WorkshopOutcome = WorkshopOutcome(result: Result<Workshop>, workshops: map<Id, Workshop>)

  /** `update`: an unknown id fails, and so does a title another workshop
      already holds. */
  function UpdateWorkshop(workshops: map<Id, Workshop>, id: Id, dto: UpdateWorkshopDto): (o: WorkshopOutcome)
    ensures id !in workshops <==> o.result == Err(RecordNotFound)
    ensures o.result.Err? ==> o.workshops == workshops
    ensures o.result.Ok? <==>
      id in workshops && forall other :: other in workshops && other != id ==> workshops[other].title != ApplyUpdate(workshops[id], dto).title
    ensures o.result.Ok? ==>
      && o.result.value == ApplyUpdate(workshops[id], dto)
      && o.workshops.Keys == workshops.Keys
      && o.workshops[id] == o.result.value
      && forall other :: other in workshops && other != id ==> o.workshops[other] == workshops[other]
  {
    if id !in workshops then WorkshopOutcome(Err(RecordNotFound), workshops)
    else
      var w := ApplyUpdate(workshops[id], dto);
      if exists other :: other in workshops && other != id && workshops[other].title == w.title then
        WorkshopOutcome(Err(UniqueViolation("title")), workshops)
      else WorkshopOutcome(Ok(w), workshops[id := w])
  }

  /** An update keeps titles unique, and repeating it changes nothing more. */
  lemma {:induction false} UpdateKeepsTitlesUnique(workshops: map<Id, Workshop>, id: Id, dto: UpdateWorkshopDto)
    requires UniqueTitles(workshops)
    ensures var o := UpdateWorkshop(workshops, id, dto);
      && UniqueTitles(o.workshops)
      && UpdateWorkshop(o.workshops, id, dto).workshops == o.workshops
  {
    var o := UpdateWorkshop(workshops, id, dto);
    if o.result.Ok? {
      var w := o.result.value;
      assert ApplyUpdate(w, dto) == w;
      assert o.workshops[id := w] == o.workshops;
    }
  }

  /** `remove`: exactly the addressed workshop leaves the table. */
  function RemoveWorkshop(workshops: map<Id, Workshop>, id: Id): (o: WorkshopOutcome)
    ensures id !in workshops <==> o.result == Err(RecordNotFound)
    ensures o.result.Err? ==> o.workshops == workshops
    ensures id in workshops ==>
      && o.result == Ok(workshops[id])
      && o.workshops.Keys == workshops.Keys - {id}
      && forall other :: other in o.workshops ==> o.workshops[other] == workshops[other]
  {
    if id !in workshops then WorkshopOutcome(Err(RecordNotFound), workshops)
    else WorkshopOutcome(Ok(workshops[id]), workshops - {id})
  }

  /** Removing a workshop just created restores the table. */
  lemma {:induction false} CreateThenRemove(workshops: map<Id, Workshop>, data: Workshop, id: Id)
    requires id !in workshops
    ensures var o := CreateWorkshop(workshops, data, id);
      o.reply.Created? ==> RemoveWorkshop(o.workshops, id).workshops == workshops
  {
    var o := CreateWorkshop(workshops, data, id);
    if o.reply.Created? {
      assert o.workshops - {id} == workshops;
    }
  }

  // ---------------------------------------------------------------------
  // Listings relative to the current instant

  /** `findPast`: the workshops dated strictly before `now`. */
  function FindPast(workshops: map<Id, Workshop>, now: Millis): (r: map<Id, Workshop>)
    ensures forall id :: id in r <==> id in workshops && workshops[id].date < now
    ensures forall id :: id in r ==> r[id] == workshops[id]
  {
    map id | id in workshops && workshops[id].date < now :: workshops[id]
  }

  /** `findUpcoming`: the workshops dated strictly after `now`. */
  function FindUpcoming(workshops: map<Id, Workshop>, now: Millis): (r: map<Id, Workshop>)
    ensures forall id :: id in r <==> id in workshops && workshops[id].date > now
    ensures forall id :: id in r ==> r[id] == workshops[id]
  {
    map id | id in workshops && workshops[id].date > now :: workshops[id]
  }

  /** Past and upcoming never overlap; together they hold every workshop
      except those dated exactly `now`, which are in neither. */
  lemma PastUpcomingPartition(workshops: map<Id, Workshop>, now: Millis)
    ensures FindPast(workshops, now).Keys !! FindUpcoming(workshops, now).Keys
    ensures FindPast(workshops, now).Keys + FindUpcoming(workshops, now).Keys
         == workshops.Keys - (set id | id in workshops && workshops[id].date == now)
  {
  }

  /** As time passes, workshops only move from upcoming to past. */
  lemma TimeMovesWorkshopsToPast(workshops: map<Id, Workshop>, earlier: Millis, later: Millis)
    requires earlier <= later
    ensures FindPast(workshops, earlier).Keys <= FindPast(workshops, later).Keys
    ensures FindUpcoming(workshops, later).Keys <= FindUpcoming(workshops, earlier).Keys
  {
  }

  // ---------------------------------------------------------------------
  // The operations on the store

  method CreateWorkshopRequest(db: Db, data: Workshop, id: Id) returns (r: CreateReply)
    requires db.Valid() && id !in db.workshops
    modifies db`workshops
    ensures db.Valid()
    ensures var o := CreateWorkshop(old(db.workshops), data, id); r == o.reply && db.workshops == o.workshops
  {
    CreateKeepsTitlesUnique(db.workshops, data, id);
    if exists other :: other in db.workshops && db.workshops[other].title == data.title {
      return ErrorReply(DuplicateTitle);
    }
    db.workshops := db.workshops[id := data];
    r := Created(data);
  }

  method UpdateWorkshopRequest(db: Db, id: Id, dto: UpdateWorkshopDto) returns (r: Result<Workshop>)
    requires db.Valid()
    modifies db`workshops
    ensures db.Valid()
    ensures var o := UpdateWorkshop(old(db.workshops), id, dto); r == o.result && db.workshops == o.workshops
  {
    UpdateKeepsTitlesUnique(db.workshops, id, dto);
    if id !in db.workshops {
      return Err(RecordNotFound);
    }
    var w := ApplyUpdate(db.workshops[id], dto);
    if exists other :: other in db.workshops && other != id && db.workshops[other].title == w.title {
      return Err(UniqueViolation("title"));
    }
    db.workshops := db.workshops[id := w];
    r := Ok(w);
  }

  method RemoveWorkshopRequest(db: Db, id: Id) returns (r: Result<Workshop>)
    requires db.Valid()
    modifies db`workshops
    ensures db.Valid()
    ensures var o := RemoveWorkshop(old(db.workshops), id); r == o.result && db.workshops == o.workshops
  {
    if id !in db.workshops {
      return Err(RecordNotFound);
    }
    r := Ok(db.workshops[id]);
    db.workshops := db.workshops - {id};
  }
}
