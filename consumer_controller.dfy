/** The consumer service (no.gardos): CRUD endpoints over consumers under
    generated ids. Both of its updates save a consumer without an id, so
    each successful update inserts a new consumer and leaves the one under
    the path id as it was. */
module ConsumerApi {
  import opened Common
  import opened Schema
  import opened Store

  /** The stored entity; the id is the key it is stored under. */
  datatype Consumer = Consumer(name: Option<string>)

  /** The DTO of the consumer stored under `id`. */
  function ToDto(id: int, c: Consumer): ConsumerDto
  {
    ConsumerDto(c.name, Some(id))
  }

  /** The DTO carries both the storage id and the stored name: distinct
      entries never convert alike. */
  lemma ToDtoKeepsEveryField(i: int, a: Consumer, j: int, b: Consumer)
    ensures ToDto(i, a) == ToDto(j, b) ==> i == j && a == b
  {
  }

  class ConsumerController {
    /** `consumerRepo`: consumers keyed by their generated id. */
    var consumerRepo: map<int, Consumer>
    var nextId: int

    ghost predicate Valid()
      reads this
    {
      IdsBelow(consumerRepo, nextId)
    }

    constructor ()
      ensures Valid() && consumerRepo == map[] && nextId == 1
    {
      consumerRepo := map[];
      nextId := 1;
    }

    /** `consumerRepo.save` of a consumer without an id: a fresh id is generated. */
    method Insert(c: Consumer) returns (id: int)
      requires Valid()
      modifies this
      ensures Valid()
      ensures id == old(nextId) && id !in old(consumerRepo)
      ensures consumerRepo == old(consumerRepo)[id := c] && nextId == old(nextId) + 1
    {
      id := nextId;
      consumerRepo := consumerRepo[id := c];
      nextId := nextId + 1;
    }

    /** GET /consumer/{id}: 404 for a missing id, else 200 and its DTO. */
    method GetConsumer(pathId: int) returns (status: int, body: Option<ConsumerDto>)
      ensures pathId !in consumerRepo ==> status == 404 && body == None
      ensures pathId in consumerRepo ==> status == 200 && body == Some(ToDto(pathId, consumerRepo[pathId]))
    {
      if pathId !in consumerRepo {
        return 404, None;
      }
      return 200, Some(ToDto(pathId, consumerRepo[pathId]));
    }

    /** POST /consumer: 400 and nothing stored when the body names an id;
        otherwise one consumer stored under a fresh id, and 201. */
    method CreateConsumer(dto: ConsumerDto) returns (status: int)
      requires Valid()
      modifies this
      ensures Valid()
      ensures status == 400 <==> dto.id.Some?
      ensures status == 400 ==> consumerRepo == old(consumerRepo) && nextId == old(nextId)
      ensures status != 400 ==> status == 201 && old(nextId) !in old(consumerRepo) && nextId == old(nextId) + 1
      ensures status != 400 ==> consumerRepo == old(consumerRepo)[old(nextId) := Consumer(dto.name)]
    {
      if dto.id.Some? {
        return 400;
      }
      var _ := Insert(Consumer(dto.name));
      return 201;
    }

    /** PATCH /consumer/{id}: 404 for a missing id. Otherwise a consumer with
        the new name is inserted under a fresh id, the one under the path id
        keeps its old name, and the answer is 200 with the new consumer. */
    method UpdateConsumerName(pathId: int, name: string) returns (status: int, body: Option<ConsumerDto>)
      requires Valid()
      modifies this
      ensures Valid()
      ensures pathId !in old(consumerRepo) ==> status == 404 && body == None
      ensures pathId !in old(consumerRepo) ==> consumerRepo == old(consumerRepo) && nextId == old(nextId)
      ensures pathId in old(consumerRepo) ==> status == 200 && old(nextId) !in old(consumerRepo)
      ensures pathId in old(consumerRepo) ==> consumerRepo == old(consumerRepo)[old(nextId) := Consumer(Some(name))]
      ensures pathId in old(consumerRepo) ==> nextId == old(nextId) + 1
      ensures pathId in old(consumerRepo) ==> body == Some(ConsumerDto(Some(name), Some(old(nextId))))
    {
      if pathId !in consumerRepo {
        return 404, None;
      }
      var id := Insert(Consumer(Some(name)));
      return 200, Some(ToDto(id, consumerRepo[id]));
    }

    /** PUT /consumer/{id}: 400 when the body names an id, 404 for a missing
        id, both storing nothing; otherwise a new consumer is inserted, the
        one under the path id is untouched, and 200 with the new one. */
    method UpdateConsumer(pathId: int, requestDto: ConsumerDto) returns (status: int, body: Option<ConsumerDto>)
      requires Valid()
      modifies this
      ensures Valid()
      ensures status == 400 || status == 404 || status == 200
      ensures status == 400 <==> requestDto.id.Some?
      ensures status == 404 <==> requestDto.id.None? && pathId !in old(consumerRepo)
      ensures status != 200 ==> consumerRepo == old(consumerRepo) && nextId == old(nextId) && body == None
      ensures status == 200 ==> old(nextId) !in old(consumerRepo) && pathId != old(nextId) && nextId == old(nextId) + 1
      ensures status == 200 ==> consumerRepo == old(consumerRepo)[old(nextId) := Consumer(requestDto.name)]
      ensures status == 200 ==> body == Some(ConsumerDto(requestDto.name, Some(old(nextId))))
    {
      if requestDto.id.Some? {
        return 400, None;
      }
      if pathId !in consumerRepo {
        return 404, None;
      }
      var id := Insert(Consumer(requestDto.name));
      return 200, Some(ToDto(id, consumerRepo[id]));
    }

    /** DELETE /consumer/{id}: 404 for a missing id, else removed and 204. */
    method DeleteConsumer(pathId: int) returns (status: int)
      requires Valid()
      modifies this
      ensures Valid() && nextId == old(nextId)
      ensures pathId !in old(consumerRepo) ==> status == 404 && consumerRepo == old(consumerRepo)
      ensures pathId in old(consumerRepo) ==> status == 204 && consumerRepo == old(consumerRepo) - {pathId}
    {
      if pathId !in consumerRepo {
        return 404;
      }
      consumerRepo := consumerRepo - {pathId};
      return 204;
    }
  }

  /** A rename answers 200 with the new name, yet reading the renamed id
      afterwards still shows the old name. */
  method RenameScenario(first: string, second: string)
    returns (renamed: int, reply: Option<ConsumerDto>, read: Option<ConsumerDto>)
    ensures renamed == 200
    ensures reply == Some(ConsumerDto(Some(second), Some(2)))
    ensures read == Some(ConsumerDto(Some(first), Some(1)))
  {
    var c := new ConsumerController();
    var created := c.CreateConsumer(ConsumerDto(Some(first), None));
    renamed, reply := c.UpdateConsumerName(1, second);
    var status;
    status, read := c.GetConsumer(1);
  }
}
