/** The producer service (no.gardos). Every consumer-created message adds
    one producer; the endpoints read, create, rename, "update" and delete
    producers under generated ids. */
module ProducerApi {
  import opened Common
  import opened Schema
  import opened Store

  /** The stored entity; the id is the key it is stored under. */
  datatype Producer = Producer(name: Option<string>)

  /** The DTO of the producer stored under `id`. */
  function ToDto(id: int, p: Producer): ProducerDto
  {
    ProducerDto(p.name, Some(id))
  }

  /** The DTO carries both the storage id and the stored name: distinct
      entries never convert alike. */
  lemma ToDtoKeepsEveryField(i: int, a: Producer, j: int, b: Producer)
    ensures ToDto(i, a) == ToDto(j, b) ==> i == j && a == b
  {
  }

  class ProducerController {
    /** `producerRepo`: producers keyed by their generated id. */
    var producerRepo: map<int, Producer>
    var nextId: int

    ghost predicate Valid()
      reads this
    {
      IdsBelow(producerRepo, nextId)
    }

    constructor ()
      ensures Valid() && producerRepo == map[] && nextId == 1
    {
      producerRepo := map[];
      nextId := 1;
    }

    /** `producerRepo.save` of a producer without an id: a fresh id is generated. */
    method Insert(p: Producer) returns (id: int)
      requires Valid()
      modifies this
      ensures Valid()
      ensures id == old(nextId) && id !in old(producerRepo)
      ensures producerRepo == old(producerRepo)[id := p] && nextId == old(nextId) + 1
    {
      id := nextId;
      producerRepo := producerRepo[id := p];
      nextId := nextId + 1;
    }

    /** The consumer-created listener: one new producer carrying the
        message's name; a failing save is swallowed and stores nothing. */
    method RabbitMq(consumer: ConsumerDto, saveFails: bool)
      requires Valid()
      modifies this
      ensures Valid()
      ensures saveFails ==> producerRepo == old(producerRepo) && nextId == old(nextId)
      ensures !saveFails ==> old(nextId) !in old(producerRepo) && nextId == old(nextId) + 1
      ensures !saveFails ==> producerRepo == old(producerRepo)[old(nextId) := Producer(consumer.name)]
    {
      if saveFails {
        return;
      }
      var _ := Insert(Producer(consumer.name));
    }

    /** GET /producer/{id}: 404 for a missing id, else 200 and its DTO. */
    method GetProducer(pathId: int) returns (status: int, body: Option<ProducerDto>)
      ensures pathId !in producerRepo ==> status == 404 && body == None
      ensures pathId in producerRepo ==> status == 200 && body == Some(ToDto(pathId, producerRepo[pathId]))
    {
      if pathId !in producerRepo {
        return 404, None;
      }
      return 200, Some(ToDto(pathId, producerRepo[pathId]));
    }

    /** POST /producer: 400 and nothing stored when the body names an id;
        otherwise one producer stored under a fresh id, and 201. */
    method CreateProducer(dto: ProducerDto) returns (status: int)
      requires Valid()
      modifies this
      ensures Valid()
      ensures status == 400 <==> dto.id.Some?
      ensures status == 400 ==> producerRepo == old(producerRepo) && nextId == old(nextId)
      ensures status != 400 ==> status == 201 && old(nextId) !in old(producerRepo) && nextId == old(nextId) + 1
      ensures status != 400 ==> producerRepo == old(producerRepo)[old(nextId) := Producer(dto.name)]
    {
      if dto.id.Some? {
        return 400;
      }
      var _ := Insert(Producer(dto.name));
      return 201;
    }

    /** PATCH /producer/{id}: 404 for a missing id; otherwise the name is
        overwritten under the same id, and 200 with the saved producer. */
    method UpdateProducerName(pathId: int, name: string) returns (status: int, body: Option<ProducerDto>)
      requires Valid()
      modifies this
      ensures Valid() && nextId == old(nextId)
      ensures pathId !in old(producerRepo) ==> status == 404 && body == None && producerRepo == old(producerRepo)
      ensures pathId in old(producerRepo) ==> status == 200 && body == Some(ProducerDto(Some(name), Some(pathId)))
      ensures pathId in old(producerRepo) ==> producerRepo == old(producerRepo)[pathId := Producer(Some(name))]
    {
      if pathId !in producerRepo {
        return 404, None;
      }
      var newProducer := Producer(Some(name));
      producerRepo := producerRepo[pathId := newProducer];
      return 200, Some(ToDto(pathId, newProducer));
    }

    /** PUT /producer/{id}: 400 when the body names an id, 404 for a missing
        id, both storing nothing. Otherwise the producer is saved without an
        id: a new entry is inserted, the one under the path id is untouched,
        and the answer is 200 with the new entry. */
    method UpdateProducer(pathId: int, requestDto: ProducerDto) returns (status: int, body: Option<ProducerDto>)
      requires Valid()
      modifies this
      ensures Valid()
      ensures status == 400 || status == 404 || status == 200
      ensures status == 400 <==> requestDto.id.Some?
      ensures status == 404 <==> requestDto.id.None? && pathId !in old(producerRepo)
      ensures status != 200 ==> producerRepo == old(producerRepo) && nextId == old(nextId) && body == None
      ensures status == 200 ==> old(nextId) !in old(producerRepo) && pathId != old(nextId) && nextId == old(nextId) + 1
      ensures status == 200 ==> producerRepo == old(producerRepo)[old(nextId) := Producer(requestDto.name)]
      ensures status == 200 ==> body == Some(ProducerDto(requestDto.name, Some(old(nextId))))
    {
      if requestDto.id.Some? {
        return 400, None;
      }
      if pathId !in producerRepo {
        return 404, None;
      }
      var id := Insert(Producer(requestDto.name));
      return 200, Some(ToDto(id, producerRepo[id]));
    }

    /** DELETE /producer/{id}: 404 for a missing id, else removed and 204. */
    method DeleteProducer(pathId: int) returns (status: int)
      requires Valid()
      modifies this
      ensures Valid() && nextId == old(nextId)
      ensures pathId !in old(producerRepo) ==> status == 404 && producerRepo == old(producerRepo)
      ensures pathId in old(producerRepo) ==> status == 204 && producerRepo == old(producerRepo) - {pathId}
    {
      if pathId !in producerRepo {
        return 404;
      }
      producerRepo := producerRepo - {pathId};
      return 204;
    }
  }

  /** After a PUT the old producer still has its old name and a second
      producer carries the new one; a rename changes the name in place. */
  method UpdateScenario(first: string, second: string)
    returns (status: int, oldName: Option<string>, newName: Option<string>, renamed: Option<string>, count: int)
    ensures status == 200
    ensures oldName == Some(first) && newName == Some(second) && renamed == Some(second)
    ensures count == 2
  {
    var c := new ProducerController();
    c.RabbitMq(ConsumerDto(Some(first), None), false);
    var body;
    status, body := c.UpdateProducer(1, ProducerDto(Some(second), None));
    oldName := c.producerRepo[1].name;
    newName := c.producerRepo[2].name;
    count := |c.producerRepo.Keys|;
    var s, b := c.UpdateProducerName(1, second);
    renamed := c.producerRepo[1].name;
  }
}
